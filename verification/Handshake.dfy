/** The joint run of two nodes opening a channel: every interleaving of the funder's and the
    fundee's daemons over FIFO links, mixed with arbitrary activity on other channels. */
module Handshake {
  import opened Types
  import opened Node
  import Reservations
  import Launch
  import Lnpd
  import Ledger
  import Channeld
  import FundingSafety

  datatype Side = Funder | Fundee

  /** Both nodes, the wires between their peer daemons, the transactions known to the network,
      and what went wrong, if anything did. */
  datatype Joint = Joint(
    a: Node, b: Node, ab: seq<LnMsg>, ba: seq<LnMsg>, chain: set<Slice32>, fault: Option<Fault>)

  /** What is fixed for a run: the request, the temporary id drawn for it, and the answers of
      foreign code, each of which is consulted once. */
  datatype Setup = Setup(
    temp: Slice32, request: CreateChannel, client: ClientId, v: Channeld.Verdict,
    aRemote: NodeId, bRemote: NodeId, aKeys: LocalKeyset, bKeys: LocalKeyset,
    aParams: ChannelParams, bParams: ChannelParams)

  /** Foreign code does its part: the core library accepts, signd signs, sends go through. */
  predicate Cooperative(v: Channeld.Verdict) {
    v.core && v.signature.Some? && v.refund.inputs != [] && v.budget >= 2
  }

  datatype Action =
    | Take(side: Side, link: Link, backend: Launch.Backend)
    | Cross(to: Side)
    | Find(txid: Slice32)
    | Elsewhere(side: Side, event: Lnpd.Event)

  function At(g: Joint, side: Side): Node { if side == Funder then g.a else g.b }

  /** The event touches neither the ids nor the funding transactions given. */
  predicate Apart(e: Lnpd.Event, ids: set<Slice32>, txids: set<Slice32>) {
    match e
    case Request(temp, _, _) => temp !in ids
    case Peer(_, OpenChannel(temp, _, _)) => temp !in ids
    case Peer(_, ChannelReestablish(id)) => id !in ids
    case Peer(_, _) => true
    case Control(source, msg, backend) =>
      && (source.Channel? ==> source.id !in ids)
      && match msg
         case Keyset(service, _) => service.Channel? ==> service.id !in ids
         case Error(destination) => destination.Channel? ==> destination.id !in ids
         case EsbError(destination) => destination.Channel? ==> destination.id !in ids
         case ChannelUpdate(oldId, newId) => oldId !in ids && newId !in ids
         case Signed(psbt) => psbt.txid !in txids
         case ConstructFunding(_) =>
           backend.funding.Funded? ==> ChannelIdWith(backend.funding.psbt.txid, backend.funding.psbt.vout) !in ids
         case _ => true
  }

  /** Ids and transactions in use by the observed channel. */
  function OwnIds(c: Setup, g: Joint): set<Slice32> {
    {c.temp} + (if g.a.chan.Some? && g.a.chan.value.identity.Channel? then {g.a.chan.value.identity.id} else {})
             + (set x | x in g.a.lnpd.pending && g.a.lnpd.pending[x].temp == c.temp :: ChannelIdWith(x, FIRST_OUTPUT))
  }

  function OwnTxids(c: Setup, g: Joint): set<Slice32> {
    set x | x in g.a.lnpd.pending && g.a.lnpd.pending[x].temp == c.temp
  }

  ghost predicate Enabled(c: Setup, g: Joint, act: Action) {
    g.fault.None? &&
    match act
    case Take(side, l, backend) =>
      var n := At(g, side);
      && Q(n, l) != [] && backend.broadcastOk
      && (FundingSafety.ToBroker(l) ==>
            var e := Q(n, l)[0];
            && Ledger.Fresh(n.lnpd, FundingSafety.BrokerEvent(e, backend))
            && (e.msg.Ctl? && e.msg.ctl.ConstructFunding? ==> backend.funding.Funded?))
    case Cross(to) => if to == Fundee then g.ab != [] else g.ba != []
    case Find(txid) => txid in g.a.tracked && txid in g.chain
    case Elsewhere(side, event) =>
      var s := At(g, side).lnpd;
      && Ledger.Fresh(s, event) && Apart(event, OwnIds(c, g), OwnTxids(c, g))
      && Lnpd.Step(s, event).status != Lnpd.Panic
  }

  function Next(c: Setup, g: Joint, act: Action): Joint
    requires act.Take? ==> Q(At(g, act.side), act.link) != []
    requires act.Cross? ==> if act.to == Fundee then g.ab != [] else g.ba != []
    requires act.Find? ==> act.txid in g.a.tracked
  {
    match act
    case Take(side, l, backend) =>
      var d := Deliver(At(g, side), l, c.v, backend);
      var chain := g.chain + (if d.broadcast.Some? then {d.broadcast.value} else {});
      if side == Funder then Joint(d.node, g.b, g.ab + d.wire, g.ba, chain, d.fault)
      else Joint(g.a, d.node, g.ab, g.ba + d.wire, chain, d.fault)
    case Cross(to) =>
      if to == Fundee then g.(b := PeerdReceives(g.b, g.ab[0]), ab := g.ab[1..])
      else g.(a := PeerdReceives(g.a, g.ba[0]), ba := g.ba[1..])
    case Find(txid) => g.(a := WatchdFinds(g.a, txid))
    case Elsewhere(side, event) =>
      var s := Lnpd.Step(At(g, side).lnpd, event).state;
      if side == Funder then g.(a := g.a.(lnpd := s)) else g.(b := g.b.(lnpd := s))
  }

  // ---------- Stages ----------

  /** How far a run has come. `Good(m, ...)` counts the deliveries on the main strand; beside it
      run the greeting under the permanent id (`hello`), the fundee's channel update (`update`),
      the publication (`publish` counts its three deliveries) and the tracking request
      (`track`). `Bad` stages are those after a Hello taken before the keyset. */
  datatype Stage =
    | Good(m: nat, hello: bool, update: bool, publish: nat, track: bool, psbt: Psbt)
    | Bad(k: nat)
  {
    function Id(): Slice32 requires Good? { ChannelIdWith(psbt.txid, psbt.vout) }
  }

  predicate WellStaged(s: Stage) {
    match s
    case Bad(k) => k <= 4
    case Good(m, hello, update, publish, track, psbt) =>
      && m <= 36
      && (hello ==> 18 <= m <= 24 && publish == 0)
      && (update ==> 21 <= m)
      && publish <= 3 && (publish > 0 ==> m >= 24) && (m > 24 ==> publish == 3)
      && (track ==> m >= 24) && (m > 24 ==> track)
      && (m >= 15 ==> psbt.vout == FIRST_OUTPUT)
  }

  /** Number of deliveries made so far. */
  function Count(s: Stage): nat
    requires WellStaged(s)
  {
    match s
    case Bad(k) => k + 1
    case Good(m, hello, update, publish, track, _) =>
      m + (if m >= 18 && !hello then 1 else 0) + (if m >= 21 && !update then 1 else 0)
        + publish + (if track then 1 else 0)
  }

  /** The step that hands lnpd the keyset comes before the one that hands it the daemon's
      greeting, as far as the run goes. */
  predicate KeysetFirst(acts: seq<Action>)
    decreases |acts|
  {
    if acts == [] then true
    else if acts[0].Take? && acts[0].side == Funder && acts[0].link == SignLnpd then true
    else if acts[0].Take? && acts[0].side == Funder && acts[0].link == ChanLnpd then false
    else KeysetFirst(acts[1..])
  }

  // ---------- Where the messages are at each stage ----------

  datatype Spot = On(side: Side, link: Link, e: Envelope) | Wire(to: Side, ln: LnMsg) | Nowhere

  function Opening(c: Setup): LnMsg {
    OpenChannel(c.temp, c.request.fundingSat, c.request.pushMsat)
  }

  function Signature(c: Setup): nat {
    if c.v.signature.Some? then c.v.signature.value else 0
  }

  function Creation(c: Setup, s: Stage): LnMsg
    requires s.Good?
  {
    FundingCreated(c.temp, s.psbt.txid, s.psbt.vout, Signature(c))
  }

  /** The message carrying the main strand: negotiation, */
  function EarlyToken(c: Setup, s: Stage): Spot
    requires s.Good? && s.m < 12
  {
    var ct := Channel(c.temp);
    match s.m
    case 0 => On(Funder, LnpdSign, Envelope(LnpBroker, Signer, Ctl(DeriveKeyset(c.temp))))
    case 1 => On(Funder, SignLnpd, Envelope(Signer, LnpBroker, Ctl(Keyset(ct, c.aKeys))))
    case 2 => On(Funder, ChanLnpd, Envelope(ct, LnpBroker, Ctl(Hello)))
    case 3 => On(Funder, LnpdChan,
                 Envelope(LnpBroker, ct, Ctl(OpenWith(Launch.Proposal(c.request, c.aParams, c.aKeys)))))
    case 4 => On(Funder, ChanPeer, Envelope(ct, PeerBolt(c.request.remotePeer), Bolt(Opening(c))))
    case 5 => Wire(Fundee, Opening(c))
    case 6 => On(Fundee, PeerLnpd, Envelope(PeerBolt(c.bRemote), LnpBroker, Bolt(Opening(c))))
    case 7 => On(Fundee, ChanLnpd, Envelope(ct, LnpBroker, Ctl(Hello)))
    case 8 => On(Fundee, LnpdChan, Envelope(LnpBroker, ct, Ctl(AcceptFrom(Accepted(c)))))
    case 9 => On(Fundee, ChanSign, Envelope(ct, Signer, Ctl(DeriveKeyset(c.temp))))
    case 10 => On(Fundee, SignChan, Envelope(Signer, ct, Ctl(Keyset(ct, c.bKeys))))
    case _ => On(Fundee, ChanPeer, Envelope(ct, PeerBolt(c.bRemote), Bolt(AcceptChannel(c.temp))))
  }

  /** funding and commitment, */
  function MiddleToken(c: Setup, s: Stage): Spot
    requires s.Good? && 12 <= s.m < 24
  {
    var ct, cp := Channel(c.temp), Channel(s.Id());
    match s.m
    case 12 => Wire(Funder, AcceptChannel(c.temp))
    case 13 => On(Funder, PeerChan, Envelope(PeerBolt(c.aRemote), ct, Bolt(AcceptChannel(c.temp))))
    case 14 => On(Funder, ChanLnpd, Envelope(ct, LnpBroker,
                  Ctl(ConstructFunding(FundChannel(c.v.script, c.request.fundingSat, None)))))
    case 15 => On(Funder, LnpdChan, Envelope(LnpBroker, ct, Ctl(FundingConstructed(s.psbt))))
    case 16 => On(Funder, ChanSign, Envelope(ct, Signer, Ctl(Sign(c.v.refund))))
    case 17 => On(Funder, SignChan, Envelope(Signer, ct, Ctl(Signed(c.v.refund.(signed := true)))))
    case 18 => On(Funder, ChanPeer, Envelope(cp, PeerBolt(c.request.remotePeer), Bolt(Creation(c, s))))
    case 19 => Wire(Fundee, Creation(c, s))
    case 20 => On(Fundee, PeerChan, Envelope(PeerBolt(c.bRemote), ct, Bolt(Creation(c, s))))
    case 21 => On(Fundee, ChanPeer, Envelope(cp, PeerBolt(c.bRemote), Bolt(FundingSigned(s.Id(), Signature(c)))))
    case 22 => Wire(Funder, FundingSigned(s.Id(), Signature(c)))
    case _ => On(Funder, PeerChan, Envelope(PeerBolt(c.aRemote), cp, Bolt(FundingSigned(s.Id(), Signature(c)))))
  }

  /** and activation. */
  function LateToken(c: Setup, s: Stage): Spot
    requires s.Good? && 24 <= s.m
  {
    var cp := Channel(s.Id());
    match s.m
    case 25 => On(Funder, WatchChan, Envelope(Watch, cp, Ctl(TxFound(s.psbt.txid))))
    case 26 => On(Funder, ChanPeer, Envelope(cp, PeerBolt(c.request.remotePeer), Bolt(FundingLocked(s.Id()))))
    case 27 => Wire(Fundee, FundingLocked(s.Id()))
    case 28 => On(Fundee, PeerChan, Envelope(PeerBolt(c.bRemote), cp, Bolt(FundingLocked(s.Id()))))
    case 29 | 30 => On(Fundee, ChanRoute, Envelope(cp, Router, Ctl(Hello)))
    case 31 => On(Fundee, RouteChan, Envelope(Router, cp, Ctl(Hello)))
    case 32 => On(Fundee, ChanPeer, Envelope(cp, PeerBolt(c.bRemote), Bolt(FundingLocked(s.Id()))))
    case 33 => Wire(Funder, FundingLocked(s.Id()))
    case 34 => On(Funder, PeerChan, Envelope(PeerBolt(c.aRemote), cp, Bolt(FundingLocked(s.Id()))))
    case 35 => On(Funder, ChanRoute, Envelope(cp, Router, Ctl(ChannelCreated(s.Id()))))
    case _ => Nowhere
  }

  function Token(c: Setup, s: Stage): Spot
    requires s.Good?
  {
    if s.m < 12 then EarlyToken(c, s) else if s.m < 24 then MiddleToken(c, s) else LateToken(c, s)
  }

  function Accepted(c: Setup): AcceptChannelFrom {
    AcceptChannelFrom(c.bRemote, c.bParams.policy, c.bParams.common, c.bParams.local, c.temp)
  }

  /** Messages of side strands sent before the main strand's message. */
  function Before(c: Setup, s: Stage): seq<Spot>
    requires s.Good?
  {
    var ct, cp := Channel(c.temp), Channel(s.Id());
    (if s.m < 2 then [On(Funder, ChanLnpd, Envelope(ct, LnpBroker, Ctl(Hello)))]
     else if s.hello then [On(Funder, ChanLnpd, Envelope(cp, LnpBroker, Ctl(Hello)))]
     else [])
    + (if s.update then [On(Fundee, ChanLnpd, Envelope(cp, LnpBroker, Ctl(ChannelUpdate(c.temp, s.Id()))))] else [])
    + (if s.m == 29 then [On(Fundee, ChanRoute, Envelope(cp, Router, Ctl(ChannelCreated(s.Id()))))] else [])
  }

  /** The publication and tracking strands. */
  function Publication(c: Setup, s: Stage): seq<Spot>
    requires s.Good?
  {
    var cp := Channel(s.Id());
    if s.publish == 0 then [On(Funder, ChanLnpd, Envelope(cp, LnpBroker, Ctl(PublishFunding)))]
    else if s.publish == 1 then [On(Funder, LnpdSign, Envelope(LnpBroker, Signer, Ctl(Sign(s.psbt))))]
    else if s.publish == 2 then
      [On(Funder, SignLnpd, Envelope(Signer, LnpBroker, Ctl(Signed(s.psbt.(signed := true)))))]
    else []
  }

  function Tracking(c: Setup, s: Stage): seq<Spot>
    requires s.Good?
  {
    if s.track then [] else [On(Funder, ChanWatch, Envelope(Channel(s.Id()), Watch, Ctl(Track(s.psbt.txid, 0))))]
  }

  /** After a Hello taken too early. */
  function Astray(c: Setup, k: nat): seq<Spot> {
    match k
    case 0 => [On(Funder, LnpdSign, Envelope(LnpBroker, Signer, Ctl(DeriveKeyset(c.temp))))]
    case 1 => [On(Funder, SignLnpd, Envelope(Signer, LnpBroker, Ctl(Keyset(Channel(c.temp), c.aKeys))))]
    case 2 => [On(Funder, LnpdSign,
                  Envelope(LnpBroker, Signer, Ctl(OpenWith(Launch.Proposal(c.request, c.aParams, c.aKeys)))))]
    case 3 => [On(Funder, SignLnpd, Envelope(Signer, LnpBroker, Ctl(Error(LnpBroker))))]
    case _ => []
  }

  /** All messages in flight, in sending order on each link. */
  function Inflight(c: Setup, s: Stage): seq<Spot> {
    match s
    case Bad(k) => Astray(c, k)
    case Good(m, _, _, _, _, _) =>
      if m == 24 then Before(c, s) + Publication(c, s) + Tracking(c, s)
      else if Token(c, s).Nowhere? then Before(c, s)
      else Before(c, s) + [Token(c, s)]
  }

  /** The messages of `spots` waiting on a link, and on the wire towards a side. */
  function OnLink(spots: seq<Spot>, side: Side, l: Link): seq<Envelope>
    decreases |spots|
  {
    if spots == [] then []
    else
      (if spots[0].On? && spots[0].side == side && spots[0].link == l then [spots[0].e] else [])
      + OnLink(spots[1..], side, l)
  }

  function OnWire(spots: seq<Spot>, to: Side): seq<LnMsg>
    decreases |spots|
  {
    if spots == [] then []
    else (if spots[0].Wire? && spots[0].to == to then [spots[0].ln] else []) + OnWire(spots[1..], to)
  }

  // ---------- What the daemons look like at each stage ----------

  function FunderMachine(m: nat): Channeld.Machine {
    if m <= 3 then Channeld.Launch
    else if m <= 13 then Channeld.Propose(Channeld.Proposed)
    else if m <= 15 then Channeld.Propose(Channeld.ChannelPropose.Accepted)
    else if m <= 17 then Channeld.Propose(Channeld.Signing)
    else if m <= 23 then Channeld.Propose(Channeld.Funding)
    else if m <= 25 then Channeld.Propose(Channeld.Published)
    else if m <= 34 then Channeld.Propose(Channeld.ChannelPropose.Locked)
    else Channeld.Active
  }

  function FundeeMachine(m: nat): Channeld.Machine {
    if m <= 8 then Channeld.Launch
    else if m <= 10 then Channeld.Accept(Channeld.ChannelAccept.Accepted)
    else if m <= 20 then Channeld.Accept(Channeld.ChannelAccept.Signed)
    else if m <= 28 then Channeld.Accept(Channeld.Funded)
    else if m <= 31 then Channeld.Accept(Channeld.ChannelAccept.Locked)
    else Channeld.Active
  }

  /** What others and later steps depend on: a daemon still has the file of its temporary id as
      long as it goes by it. */
  datatype Face = Face(identity: ServiceId, state: Channeld.ChannelState, filed: bool)

  function FaceOf(d: Channeld.Daemon): Face {
    Face(d.identity, d.state, d.identity == Channel(d.state.channel.temp) ==> d.state.channel.temp in d.disk)
  }

  function FunderFace(c: Setup, s: Stage): Face {
    if s.Bad? || s.m <= 3 then
      Face(Channel(c.temp),
           Channeld.ChannelState(Channeld.Launch, Channeld.BoltChannel(c.temp, 0, None), None), true)
    else
      Face(Channel(if s.m <= 17 then c.temp else s.Id()),
           Channeld.ChannelState(
             FunderMachine(s.m),
             Channeld.BoltChannel(c.temp, c.request.fundingSat,
                                  if s.m <= 15 then None else Some((s.psbt.txid, s.psbt.vout))),
             Some(c.request.remotePeer)), true)
  }

  function FundeeFace(c: Setup, s: Stage): Option<Face> {
    if s.Bad? || s.m <= 6 then None
    else
      Some(Face(Channel(if s.m <= 20 then c.temp else s.Id()),
                Channeld.ChannelState(
                  FundeeMachine(s.m),
                  Channeld.BoltChannel(c.temp, 0, if s.m <= 20 then None else Some((s.psbt.txid, s.psbt.vout))),
                  if s.m <= 8 then None else Some(c.bRemote)), true))
  }

  function ExpectedFace(c: Setup, s: Stage, side: Side): Option<Face> {
    if side == Funder then Some(FunderFace(c, s)) else FundeeFace(c, s)
  }

  predicate DaemonFits(c: Setup, n: Node, s: Stage, side: Side) {
    (if n.chan.Some? then Some(FaceOf(n.chan.value)) else None) == ExpectedFace(c, s, side)
  }

  /** Where the funder's lnpd keeps the launcher of the observed channel, and in what state. */
  function LauncherAt(c: Setup, s: Stage): Option<(Lnpd.Place, Launch.ChannelLauncher)> {
    var ct := Lnpd.Creating(Channel(c.temp));
    match s
    case Bad(k) =>
      Some((ct, if k <= 1 then Launch.Deriving(c.temp, c.request, c.client)
                else Launch.Negotiating(c.temp, c.client)))
    case Good(m, _, _, publish, _, psbt) =>
      if m < 15 then
        Some((ct, if m <= 1 then Launch.Init(c.temp, c.request, c.client)
                  else if m == 2 then Launch.Launching(c.temp, c.request, c.client, c.aKeys)
                  else Launch.Negotiating(c.temp, c.client)))
      else if publish == 0 then
        Some((Lnpd.Creating(Channel(s.Id())), Launch.Committing(s.Id(), psbt.txid, c.client)))
      else if publish <= 2 then
        Some((Lnpd.FundingAt(psbt.txid), Launch.Signing(s.Id(), psbt.txid, c.client)))
      else None
  }

  /** The funding reserved for the observed channel. */
  function ReservedFor(c: Setup, s: Stage): Option<Reservations.PendingFunding> {
    if s.Good? && s.m >= 15 then Some(Reservations.PendingFunding(c.temp, s.psbt.txid, s.psbt.inputs, s.psbt))
    else None
  }

  ghost predicate FunderBroker(c: Setup, n: Lnpd.State, s: Stage) {
    var l, r := LauncherAt(c, s), ReservedFor(c, s);
    && Ledger.Inv(n) && n.params == c.aParams
    && (l.Some? ==> Lnpd.At(n, l.value.0) == Some(l.value.1))
    && (forall x | x in n.pending && n.pending[x].temp == c.temp :: r == Some(n.pending[x]))
    && (r.Some? ==> r.value.fundingTxid in n.pending && n.pending[r.value.fundingTxid] == r.value)
  }

  ghost predicate FundeeBroker(c: Setup, n: Lnpd.State, s: Stage) {
    var ct := Channel(c.temp);
    && Ledger.Inv(n) && n.params == c.bParams && ct !in n.creating
    && (s.Good? && s.m == 7 ==> ct in n.accepting && n.accepting[ct] == Accepted(c))
  }

  /** What the network and the funder's watcher know. */
  predicate Chain(g: Joint, s: Stage) {
    && g.fault == (if s == Bad(4) then Some(BrokerPanic) else None)
    && g.chain == (if s.Good? && s.publish == 3 then {s.psbt.txid} else {})
    && g.a.tracked == (if s.Good? && s.m == 24 && s.track then map[s.psbt.txid := Channel(s.Id())] else map[])
  }

  predicate Constants(c: Setup, g: Joint) {
    && Cooperative(c.v)
    && g.a.remote == c.aRemote && g.b.remote == c.bRemote && g.a.keys == c.aKeys && g.b.keys == c.bKeys
  }

  /** The queues and wires hold exactly the given messages. */
  ghost predicate Carries(g: Joint, spots: seq<Spot>) {
    && (forall l :: Q(g.a, l) == OnLink(spots, Funder, l))
    && (forall l :: Q(g.b, l) == OnLink(spots, Fundee, l))
    && g.ab == OnWire(spots, Fundee) && g.ba == OnWire(spots, Funder)
  }

  /** The joint state is at the given stage. */
  ghost predicate Shape(c: Setup, g: Joint, s: Stage) {
    && WellStaged(s) && Constants(c, g)
    && Carries(g, Inflight(c, s))
    && DaemonFits(c, g.a, s, Funder) && DaemonFits(c, g.b, s, Fundee)
    && FunderBroker(c, g.a.lnpd, s) && FundeeBroker(c, g.b.lnpd, s)
    && Chain(g, s)
  }

  // ---------- The token machine ----------

  /** The next stage. */
  function Advance(s: Stage, act: Action): Stage {
    match act
    case Elsewhere(_, _) => s
    case Find(_) => if s.Good? then s.(m := 25) else s
    case Cross(_) => if s.Good? then s.(m := s.m + 1) else s
    case Take(side, l, backend) =>
      if s.Bad? then Bad(s.k + 1)
      else if side == Funder && l == ChanLnpd then
        if s.m <= 1 then Bad(s.m)
        else if s.hello then s.(hello := false)
        else if s.m == 14 && backend.funding.Funded? then s.(m := 15, psbt := backend.funding.psbt)
        else if s.m == 24 then s.(publish := 1)
        else s.(m := s.m + 1)
      else if side == Funder && l == LnpdSign && s.m == 24 then s.(publish := 2)
      else if side == Funder && l == SignLnpd && s.m == 24 then s.(publish := 3)
      else if side == Funder && l == ChanWatch then s.(track := true)
      else if side == Fundee && l == ChanLnpd && s.update then s.(update := false)
      else s.(m := s.m + 1, hello := s.hello || s.m == 17, update := s.update || s.m == 20)
  }
}
