/** One LNP node: its daemons around one observed channel, joined by a FIFO queue per link. */
module Node {
  import opened Types
  import Launch
  import Lnpd
  import Channeld
  import Peerd

  /** Links between daemons. Where a link also serves other channels, its queue holds the
      messages of the observed channel. */
  datatype Link =
    | LnpdSign | SignLnpd
    | LnpdChan | ChanLnpd
    | ChanSign | SignChan
    | ChanWatch | WatchChan
    | ChanRoute | RouteChan
    | ChanPeer | PeerChan
    | PeerLnpd

  datatype Who = Broker | Chan | Signd | Watchd | Routed | Peer

  /** What an observer of the node sees: messages taken by the channel daemon, with the state it
      took them in, whether the core library accepted them and what was sent, and transactions
      given to the network by lnpd. */
  datatype Entry =
    | Consumed(machine: Channeld.Machine, msg: BusMsg, core: bool, sends: seq<Envelope>)
    | Broadcast(txid: Slice32)

  datatype Node = Node(
    lnpd: Lnpd.State,
    chan: Option<Channeld.Daemon>,
    tracked: map<Slice32, ServiceId>,
    peers: set<Peerd.ActiveId>,
    net: map<Link, seq<Envelope>>,
    history: seq<Entry>,
    remote: NodeId,
    keys: LocalKeyset)

  function Q(n: Node, l: Link): seq<Envelope> {
    if l in n.net then n.net[l] else []
  }

  function Push(n: Node, l: Link, e: Envelope): Node {
    n.(net := n.net[l := Q(n, l) + [e]])
  }

  function Pop(n: Node, l: Link): Node
    requires Q(n, l) != []
  {
    n.(net := n.net[l := Q(n, l)[1..]])
  }

  /** The link a message takes, given its sender and the service it is addressed to. Messages to
      clients leave the node. */
  function Line(from: Who, dest: ServiceId): Option<Link> {
    match from
    case Broker => if dest.Signer? then Some(LnpdSign) else if dest.Channel? then Some(LnpdChan) else None
    case Signd => if dest.LnpBroker? then Some(SignLnpd) else if dest.Channel? then Some(SignChan) else None
    case Watchd => if dest.Channel? then Some(WatchChan) else None
    case Routed => if dest.Channel? then Some(RouteChan) else None
    case Peer => if dest.LnpBroker? then Some(PeerLnpd) else if dest.Channel? then Some(PeerChan) else None
    case Chan =>
      match dest
      case LnpBroker => Some(ChanLnpd)
      case Signer => Some(ChanSign)
      case Watch => Some(ChanWatch)
      case Router => Some(ChanRoute)
      case PeerBolt(_) => Some(ChanPeer)
      case _ => None
  }

  function Post(n: Node, from: Who, e: Envelope): Node {
    var line := Line(from, e.dest);
    if line.Some? then Push(n, line.value, e) else n
  }

  function PostAll(n: Node, from: Who, es: seq<Envelope>): Node
    decreases |es|
  {
    if es == [] then n else PostAll(Post(n, from, es[0]), from, es[1..])
  }

  // ---------- Daemons taking a message ----------

  datatype Fault =
    | Lost            // the addressee has another identity, or does not exist
    | BrokerPanic
    | BrokerError
    | ChannelRefused  // the channel daemon did not expect the message or could not act on it
    | ChannelPanic

  /** Effect of one delivery: the node, what goes to the remote peer, the transaction given to
      the network, and what went wrong. */
  datatype Delivery = Delivery(node: Node, wire: seq<LnMsg>, broadcast: Option<Slice32>, fault: Option<Fault>)

  function Fine(n: Node): Delivery { Delivery(n, [], None, None) }

  /** signd answers the source of the request; unsupported requests get an error naming it. */
  function SigndReply(n: Node, e: Envelope): CtlMsg {
    if e.msg.Ctl? && e.msg.ctl.Sign? then Signed(e.msg.ctl.psbt.(signed := true))
    else if e.msg.Ctl? && e.msg.ctl.DeriveKeyset? then Keyset(Channel(e.msg.ctl.slice), n.keys)
    else Error(e.source)
  }

  function SigndTakes(n: Node, e: Envelope): Delivery {
    Fine(Post(n, Signd, Envelope(Signer, e.source, Ctl(SigndReply(n, e)))))
  }

  /** A channel daemon that was launched greets lnpd under its temporary id. */
  function Launched(n: Node, temp: Slice32): Node {
    Post(n.(chan := Some(Channeld.Spawn(temp))), Chan, Envelope(Channel(temp), LnpBroker, Ctl(Hello)))
  }

  function BrokerEffect(n: Node, e: Envelope, backend: Launch.Backend): Lnpd.Effect {
    match e.msg
    case Ctl(ctl) => Lnpd.HandleCtl(n.lnpd, e.source, ctl, backend)
    case Bolt(ln) =>
      if e.source.PeerBolt? then Lnpd.HandleP2p(n.lnpd, e.source.node, ln)
      else Lnpd.Effect(n.lnpd, [], None, None, Lnpd.Panic)
  }

  /** Carries out what a handler of lnpd decided. */
  function Settle(n: Node, effect: Lnpd.Effect): Delivery {
    var n1 := PostAll(n.(lnpd := effect.state), Broker, effect.sends);
    var n2 := if effect.launched.Some? && n1.chan.None? then Launched(n1, effect.launched.value) else n1;
    match effect.status
    case Panic => Delivery(n, [], None, Some(BrokerPanic))
    case Err => Delivery(n2, [], None, Some(BrokerError))
    case Ok =>
      if effect.broadcast.None? then Fine(n2)
      else
        var txid := effect.broadcast.value.txid;
        Delivery(n2.(history := n2.history + [Broadcast(txid)]), [], Some(txid), None)
  }

  function BrokerTakes(n: Node, e: Envelope, backend: Launch.Backend): Delivery {
    Settle(n, BrokerEffect(n, e, backend))
  }

  /** Only a message addressed to the identity the daemon has now reaches it. */
  function ChanTakes(n: Node, e: Envelope, v: Channeld.Verdict): Delivery {
    if n.chan.None? || n.chan.value.identity != e.dest then Delivery(n, [], None, Some(Lost))
    else
      var d := n.chan.value;
      var r := Channeld.Handle(d, e.source, e.msg, v);
      var entry := Consumed(d.state.machine, e.msg, v.core, r.sends);
      var n1 := PostAll(n.(chan := Some(r.d), history := n.history + [entry]), Chan, r.sends);
      match r.status
      case Updated => Fine(n1)
      case Halted => Delivery(n1, [], None, Some(ChannelPanic))
      case _ => Delivery(n1, [], None, Some(ChannelRefused))
  }

  /** watchd remembers who asked to track a transaction. */
  function WatchdTakes(n: Node, e: Envelope): Delivery {
    if e.msg.Ctl? && e.msg.ctl.Track? then Fine(n.(tracked := n.tracked[e.msg.ctl.txid := e.source]))
    else if e.msg.Ctl? && e.msg.ctl.Untrack? then Fine(n.(tracked := n.tracked - {e.msg.ctl.txid}))
    else Fine(n)
  }

  /** A transaction known to the network is reported to whoever tracks it, once. */
  function WatchdFinds(n: Node, txid: Slice32): Node
    requires txid in n.tracked
  {
    Post(n.(tracked := n.tracked - {txid}), Watchd, Envelope(Watch, n.tracked[txid], Ctl(TxFound(txid))))
  }

  /** routed echoes Hello. */
  function RoutedTakes(n: Node, e: Envelope): Delivery {
    if e.msg == Ctl(Hello) then Fine(Post(n, Routed, Envelope(Router, e.source, Ctl(Hello)))) else Fine(n)
  }

  function PeerdSends(n: Node, e: Envelope): Delivery {
    if e.msg.Bolt? then
      Delivery(n.(peers := Peerd.Outgoing(n.peers, e.msg.bolt)), [e.msg.bolt], None, None)
    else Fine(n)
  }

  function PeerdReceives(n: Node, msg: LnMsg): Node {
    var n1 := n.(peers := Peerd.Incoming(n.peers, msg));
    var to := Peerd.Route(msg);
    if to.Some? then Post(n1, Peer, Envelope(PeerBolt(n.remote), to.value, Bolt(msg))) else n1
  }

  /** Takes the first message off a link and hands it to the daemon at its end. */
  function Deliver(n: Node, l: Link, v: Channeld.Verdict, backend: Launch.Backend): Delivery
    requires Q(n, l) != []
  {
    var e := Q(n, l)[0];
    var n0 := Pop(n, l);
    match l
    case LnpdSign | ChanSign => SigndTakes(n0, e)
    case SignLnpd | ChanLnpd | PeerLnpd => BrokerTakes(n0, e, backend)
    case LnpdChan | SignChan | WatchChan | RouteChan | PeerChan => ChanTakes(n0, e, v)
    case ChanWatch => WatchdTakes(n0, e)
    case ChanRoute => RoutedTakes(n0, e)
    case ChanPeer => PeerdSends(n0, e)
  }
}
