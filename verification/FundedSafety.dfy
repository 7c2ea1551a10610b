/** Funding safety of a node with its wallet: the same theorem as for arbitrary new fundings, with
    every request for funding answered by the wallet itself. */
module FundedSafety {
  import opened Types
  import opened Node
  import Launch
  import Lnpd
  import Ledger
  import Channeld
  import Safety = FundingSafety
  import FundedRuns
  import Wallets = FundingWallet

  datatype Home = Home(node: Node, wallet: Wallets.Wallet)

  /** Steps of the node facing an arbitrary peer; a delivery comes with what the wallet would be
      told if it were asked. */
  datatype Action =
    | Take(link: Link, v: Channeld.Verdict, answers: Wallets.Answers, broadcastOk: bool)
    | PeerSays(ln: LnMsg)
    | WatchdSays(txid: Slice32)
    | Elsewhere(event: FundedRuns.Event)

  function BrokerOf(h: Home): FundedRuns.Broker { FundedRuns.Broker(h.node.lnpd, h.wallet) }

  /** What a delivery to lnpd means to lnpd and its wallet. */
  function Taken(h: Home, a: Action): FundedRuns.Event
    requires a.Take? && Q(h.node, a.link) != []
  {
    var e := Q(h.node, a.link)[0];
    if e.msg.Ctl? && e.msg.ctl.ConstructFunding? then FundedRuns.Fund(e.source, e.msg.ctl.fund, a.answers)
    else FundedRuns.Message(Safety.BrokerEvent(e, Launch.Backend(Launch.Declined, a.broadcastOk)))
  }

  function BackendFor(h: Home, a: Action): Launch.Backend
    requires a.Take? && Q(h.node, a.link) != []
  {
    var event := Taken(h, a);
    if event.Fund? then FundedRuns.Seen(BrokerOf(h), event).backend else Launch.Backend(Launch.Declined, a.broadcastOk)
  }

  /** The steps of the node alone. */
  function Plain(h: Home, a: Action): seq<Safety.Action>
    requires a.Take? ==> Q(h.node, a.link) != []
  {
    match a
    case Take(l, v, _, _) => [Safety.Take(l, v, BackendFor(h, a))]
    case PeerSays(ln) => [Safety.PeerSays(ln)]
    case WatchdSays(txid) => [Safety.WatchdSays(txid)]
    case Elsewhere(event) => if event.List? then [] else [Safety.Elsewhere(FundedRuns.Seen(BrokerOf(h), event))]
  }

  ghost predicate Enabled(h: Home, temp: Slice32, a: Action) {
    match a
    case Take(l, _, _, _) =>
      Q(h.node, l) != [] && (Safety.ToBroker(l) ==> FundedRuns.FreshIds(BrokerOf(h), Taken(h, a)))
    case Elsewhere(event) =>
      && FundedRuns.FreshIds(BrokerOf(h), event)
      && (!event.List? ==> Safety.Foreign(h.node.lnpd, FundedRuns.Seen(BrokerOf(h), event), temp))
    case _ => true
  }

  function Next(h: Home, a: Action): Home
    requires a.Take? ==> Q(h.node, a.link) != []
  {
    var acts := Plain(h, a);
    var node := if acts == [] then h.node else Safety.Next(h.node, acts[0]);
    var wallet :=
      if a.Take? && Safety.ToBroker(a.link) then FundedRuns.Step(BrokerOf(h), Taken(h, a)).wallet
      else if a.Elsewhere? then FundedRuns.Step(BrokerOf(h), a.event).wallet
      else h.wallet;
    Home(node, wallet)
  }

  ghost predicate Allowed(h: Home, temp: Slice32, actions: seq<Action>)
    decreases |actions|
  {
    actions == [] || (Enabled(h, temp, actions[0]) && Allowed(Next(h, actions[0]), temp, actions[1..]))
  }

  ghost function After(h: Home, temp: Slice32, actions: seq<Action>): Home
    requires Allowed(h, temp, actions)
    decreases |actions|
  {
    if actions == [] then h else After(Next(h, actions[0]), temp, actions[1..])
  }

  // ---------- The wallet keeps its side ----------

  lemma PanicKeepsPending(s: Lnpd.State, source: ServiceId, msg: CtlMsg, backend: Launch.Backend)
    requires Lnpd.HandleCtl(s, source, msg, backend).status == Lnpd.Panic
    ensures Lnpd.HandleCtl(s, source, msg, backend).state.pending == s.pending
  {
    var place := Lnpd.Addressed(source, msg);
    if place.Some? && Lnpd.At(s, place.value).Some? {
      Lnpd.ControlDrives(s, source, msg, backend, place.value);
    } else {
      Lnpd.ControlSpares(s, source, msg, backend);
    }
  }

  lemma SettledLnpd(n: Node, effect: Lnpd.Effect)
    ensures Settle(n, effect).node.lnpd == if effect.status == Lnpd.Panic then n.lnpd else effect.state
  {
    Safety.PostAllFrame(n.(lnpd := effect.state), Broker, effect.sends);
  }

  lemma BrokerTakes(h: Home, a: Action)
    requires FundedRuns.Inv(BrokerOf(h)) && a.Take? && Q(h.node, a.link) != [] && Safety.ToBroker(a.link)
    requires FundedRuns.FreshIds(BrokerOf(h), Taken(h, a))
    ensures FundedRuns.Inv(BrokerOf(Next(h, a)))
    ensures Ledger.Fresh(h.node.lnpd, Safety.BrokerEvent(Q(h.node, a.link)[0], BackendFor(h, a)))
  {
    var b, event := BrokerOf(h), Taken(h, a);
    FundedRuns.StepKeeps(b, event);
    BrokerHolds(h.node, a.link, a.v, BackendFor(h, a), FundedRuns.Step(b, event).lnpd, FundedRuns.Seen(b, event));
  }

  /** The node's lnpd after a delivery is where the event leaves it, or, after a panic, where it
      was; its reservations are the same either way. */
  lemma BrokerHolds(n: Node, l: Link, v: Channeld.Verdict, backend: Launch.Backend, s: Lnpd.State, event: Lnpd.Event)
    requires Q(n, l) != [] && Safety.ToBroker(l) && event == Safety.BrokerEvent(Q(n, l)[0], backend)
    requires s == Lnpd.Step(n.lnpd, event).state && Ledger.Inv(n.lnpd) && Ledger.Inv(s)
    ensures var s' := Deliver(n, l, v, backend).node.lnpd; Ledger.Inv(s') && s'.pending == s.pending
  {
    var e, n0 := Q(n, l)[0], Pop(n, l);
    var effect := BrokerEffect(n0, e, backend);
    SettledLnpd(n0, effect);
    EffectIsStep(n0, e, backend);
  }

  lemma EffectIsStep(n: Node, e: Envelope, backend: Launch.Backend)
    ensures
      var effect, s := BrokerEffect(n, e, backend), Lnpd.Step(n.lnpd, Safety.BrokerEvent(e, backend)).state;
      if effect.status == Lnpd.Panic then s.pending == n.lnpd.pending else effect.state == s
  {
    match e.msg
    case Ctl(ctl) =>
      if Lnpd.HandleCtl(n.lnpd, e.source, ctl, backend).status == Lnpd.Panic {
        PanicKeepsPending(n.lnpd, e.source, ctl, backend);
      }
    case Bolt(ln) =>
      Lnpd.PeerKeepsPending(n.lnpd, if e.source.PeerBolt? then e.source.node else 0, ln);
  }

  lemma OtherTakes(h: Home, a: Action)
    requires a.Take? && Q(h.node, a.link) != [] && !Safety.ToBroker(a.link)
    ensures Next(h, a).node.lnpd == h.node.lnpd && Next(h, a).wallet == h.wallet
  {
    var n, l := h.node, a.link;
    var e, n0 := Q(n, l)[0], Pop(n, l);
    if l == LnpdChan || l == SignChan || l == WatchChan || l == RouteChan || l == PeerChan {
      ChanTakesLnpd(n0, e, a.v);
    }
  }

  lemma ChanTakesLnpd(n: Node, e: Envelope, v: Channeld.Verdict)
    ensures ChanTakes(n, e, v).node.lnpd == n.lnpd
  {
    if n.chan.Some? && n.chan.value.identity == e.dest {
      var d := n.chan.value;
      var r := Channeld.Handle(d, e.source, e.msg, v);
      Safety.PostAllFrame(n.(chan := Some(r.d), history := n.history + [Consumed(d.state.machine, e.msg, v.core, r.sends)]),
                          Chan, r.sends);
    }
  }

  lemma StepKeeps(h: Home, temp: Slice32, a: Action)
    requires FundedRuns.Inv(BrokerOf(h)) && Enabled(h, temp, a)
    ensures FundedRuns.Inv(BrokerOf(Next(h, a)))
    ensures var acts := Plain(h, a); acts != [] ==> Safety.Enabled(h.node, temp, acts[0])
  {
    match a
    case Take(l, _, _, _) =>
      if Safety.ToBroker(l) {
        BrokerTakes(h, a);
      } else {
        OtherTakes(h, a);
      }
    case Elsewhere(event) =>
      FundedRuns.StepKeeps(BrokerOf(h), event);
    case _ =>
  }

  // ---------- Runs ----------

  function PlainRun(h: Home, actions: seq<Action>): seq<Safety.Action>
    decreases |actions|
  {
    if actions == [] || (actions[0].Take? && Q(h.node, actions[0].link) == []) then []
    else Plain(h, actions[0]) + PlainRun(Next(h, actions[0]), actions[1..])
  }

  lemma {:induction false} RunIsPlain(h: Home, temp: Slice32, actions: seq<Action>)
    requires FundedRuns.Inv(BrokerOf(h)) && Allowed(h, temp, actions)
    ensures Safety.Allowed(h.node, temp, PlainRun(h, actions))
    ensures After(h, temp, actions).node == Safety.After(h.node, temp, PlainRun(h, actions))
    decreases |actions|
  {
    if actions != [] {
      StepKeeps(h, temp, actions[0]);
      RunIsPlain(Next(h, actions[0]), temp, actions[1..]);
      var acts, rest := Plain(h, actions[0]), PlainRun(Next(h, actions[0]), actions[1..]);
      if acts == [] {
        assert PlainRun(h, actions) == rest;
      } else {
        assert PlainRun(h, actions)[1..] == rest;
      }
    }
  }

  /** In every run of the node with its wallet, against an arbitrary peer and whatever the server
      answers, a broadcast of a funding transaction reserved for the channel comes after the
      channel daemon announced that very transaction and, later, took the peer's signature while
      waiting for it. */
  lemma BroadcastOnlyAfterConfirmation(h: Home, temp: Slice32, actions: seq<Action>, k: nat, txid: Slice32)
    requires Safety.Start(h.node, temp) && FundedRuns.Inv(BrokerOf(h)) && Allowed(h, temp, actions)
    requires
      var n := After(h, temp, actions).node;
      k < |n.history| && n.history[k] == Broadcast(txid) && Safety.Ours(n.lnpd, txid, temp)
    ensures
      var history := After(h, temp, actions).node.history;
      exists i, j :: 0 <= i < j < k && Safety.Announces(history[i], txid) && Safety.Confirms(history[j])
  {
    RunIsPlain(h, temp, actions);
    Safety.BroadcastOnlyAfterConfirmation(h.node, temp, PlainRun(h, actions), k, txid);
  }
}
