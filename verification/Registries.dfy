/** Which id of the observed channel the registries of lnpd and peerd hold, at each stage of a
    joint run. */
module Registries {
  import opened Types
  import opened Node
  import opened Handshake
  import opened HandshakeSteps
  import opened HandshakeRuns
  import Reservations
  import Launch
  import Lnpd
  import Ledger
  import LnpdSteps
  import Channeld
  import Peerd
  import FundingSafety

  /** The id lnpd has registered the channel daemon under. */
  function LnpdId(c: Setup, s: Stage, side: Side): Option<Slice32> {
    match s
    case Bad(_) => if side == Funder then Some(c.temp) else None
    case Good(m, _, update, _, _, _) =>
      if side == Funder then
        if m <= 2 then None else if m < 15 then Some(c.temp) else Some(s.Id())
      else
        if m <= 7 then None else if m < 21 || update then Some(c.temp) else Some(s.Id())
  }

  /** The id peerd knows the channel by. */
  function PeerdId(c: Setup, s: Stage, side: Side): Option<Peerd.ActiveId> {
    match s
    case Bad(_) => None
    case Good(m, _, _, _, _, _) =>
      if side == Funder then
        if m <= 4 then None else if m <= 18 then Some(Peerd.Temporary(c.temp)) else Some(Peerd.Static(s.Id()))
      else
        if m <= 11 then None else if m <= 19 then Some(Peerd.Temporary(c.temp)) else Some(Peerd.Static(s.Id()))
  }

  /** The registry holds the id, and no longer the temporary one once it holds another. */
  predicate HoldsId<T(==)>(registry: set<T>, id: Option<T>, temp: T) {
    id.Some? ==> id.value in registry && (id.value != temp ==> temp !in registry)
  }

  predicate LnpdHolds(c: Setup, n: Node, s: Stage, side: Side) {
    HoldsId(n.lnpd.channels, LnpdId(c, s, side), c.temp)
  }

  predicate PeerdHolds(c: Setup, n: Node, s: Stage, side: Side) {
    HoldsId(n.peers, PeerdId(c, s, side), Peerd.Temporary(c.temp))
  }

  predicate Registered(c: Setup, g: Joint, s: Stage) {
    && LnpdHolds(c, g.a, s, Funder) && LnpdHolds(c, g.b, s, Fundee)
    && PeerdHolds(c, g.a, s, Funder) && PeerdHolds(c, g.b, s, Fundee)
    && (s.Good? && s.m >= 15 ==> s.Id() != c.temp)
  }

  // ---------- What handlers do to lnpd's registry ----------

  lemma ConcludeChannels(s: Lnpd.State, place: Lnpd.Place, l: Launch.ChannelLauncher, msg: CtlMsg, t: Launch.Transition)
    ensures
      var s' := Lnpd.Conclude(s, place, l, msg, t).state;
      || s'.channels == s.channels
      || (t.reserved.Some? &&
          s'.channels == s.channels - {l.Id()} + {ChannelIdWith(t.reserved.value.txid, t.reserved.value.vout)})
    ensures t.outcome.Became? && msg.ConstructFunding? && t.reserved.Some? ==>
              Lnpd.Conclude(s, place, l, msg, t).state.channels ==
              s.channels - {l.Id()} + {ChannelIdWith(t.reserved.value.txid, t.reserved.value.vout)}
  {
    AbsorbChannels(Lnpd.Take(s, place), l, t);
    if t.outcome.Became? {
      var to := Lnpd.Destination(place, msg, t.outcome.launcher);
      if to.Some? {
        PutChannels(Lnpd.Absorb(Lnpd.Take(s, place), l, t), to.value, t.outcome.launcher);
      }
    }
  }

  lemma AbsorbChannels(s: Lnpd.State, l: Launch.ChannelLauncher, t: Launch.Transition)
    ensures Lnpd.Absorb(s, l, t).channels ==
            if t.reserved.None? then s.channels
            else s.channels - {l.Id()} + {ChannelIdWith(t.reserved.value.txid, t.reserved.value.vout)}
  {
  }

  lemma PutChannels(s: Lnpd.State, place: Lnpd.Place, l: Launch.ChannelLauncher)
    ensures Lnpd.Put(s, place, l).channels == s.channels
  {
  }

  lemma ReservesOnlyWhenAsked(l: Launch.ChannelLauncher, source: ServiceId, msg: CtlMsg, params: ChannelParams,
                              pending: map<Slice32, Reservations.PendingFunding>, backend: Launch.Backend)
    ensures
      var t := Launch.Next(l, source, msg, params, pending, backend);
      if l.Negotiating? && msg.ConstructFunding? && backend.funding.Funded? then
        t.outcome.Became? && t.reserved == Some(backend.funding.psbt)
      else t.reserved.None?
  {
  }

  function Reregistered(s: Lnpd.State, source: ServiceId, msg: CtlMsg, backend: Launch.Backend): set<Slice32> {
    var l := Lnpd.At(s, Lnpd.Creating(source));
    if msg.Hello? then Lnpd.Register(s, source).channels
    else if msg.ChannelUpdate? then s.channels - {msg.oldId} + {msg.newId}
    else if msg.ConstructFunding? && l.Some? && l.value.Negotiating? && backend.funding.Funded? then
      s.channels - {l.value.Id()} + {ChannelIdWith(backend.funding.psbt.txid, backend.funding.psbt.vout)}
    else s.channels
  }

  /** A greeting registers its source, an update and a funding rename; nothing else does anything. */
  lemma ControlRegisters(s: Lnpd.State, source: ServiceId, msg: CtlMsg, backend: Launch.Backend)
    ensures Lnpd.HandleCtl(s, source, msg, backend).state.channels == Reregistered(s, source, msg, backend)
  {
    var place := Lnpd.Addressed(source, msg);
    if place.Some? && Lnpd.At(s, place.value).Some? {
      var s0, l := Lnpd.Greeted(s, source, msg), Lnpd.At(s, place.value).value;
      Lnpd.ControlDrives(s, source, msg, backend, place.value);
      DriveRegisters(s0, place.value, l, Lnpd.EventSource(source, msg), msg, backend);
    } else {
      UndrivenRegisters(s, source, msg, backend);
    }
  }

  lemma DriveRegisters(s: Lnpd.State, place: Lnpd.Place, l: Launch.ChannelLauncher, source: ServiceId, msg: CtlMsg,
                       backend: Launch.Backend)
    ensures Lnpd.Drive(s, place, l, source, msg, backend).state.channels ==
            if l.Negotiating? && msg.ConstructFunding? && backend.funding.Funded? then
              s.channels - {l.Id()} + {ChannelIdWith(backend.funding.psbt.txid, backend.funding.psbt.vout)}
            else s.channels
  {
    ReservesOnlyWhenAsked(l, source, msg, s.params, s.pending, backend);
    ConcludeChannels(s, place, l, msg, Launch.Next(l, source, msg, s.params, s.pending, backend));
  }

  lemma UndrivenRegisters(s: Lnpd.State, source: ServiceId, msg: CtlMsg, backend: Launch.Backend)
    requires var place := Lnpd.Addressed(source, msg); place.None? || Lnpd.At(s, place.value).None?
    ensures Lnpd.HandleCtl(s, source, msg, backend).state.channels == Reregistered(s, source, msg, backend)
  {
    if msg.Hello? {
      var s0 := Lnpd.Register(s, source);
      assert Lnpd.At(s0, Lnpd.Creating(source)).None?;
      GreetingRegisters(s0, source);
    } else if Lnpd.Addressed(source, msg).Some? {
      assert Lnpd.HandleCtl(s, source, msg, backend) == Lnpd.Effect(s, [], None, None, Lnpd.Panic);
    }
  }

  lemma GreetingRegisters(s: Lnpd.State, source: ServiceId)
    ensures Lnpd.HelloFromOthers(s, source).state.channels == s.channels
  {
  }

  /** Events about other ids leave the registration of ours alone. */
  lemma ApartRegisters(s: Lnpd.State, e: Lnpd.Event, ids: set<Slice32>, txids: set<Slice32>, id: Slice32)
    requires Lnpd.Keyed(s) && Apart(e, ids, txids) && id in ids
    ensures id in Lnpd.Step(s, e).state.channels <==> id in s.channels
  {
    if e.Control? {
      ControlRegisters(s, e.source, e.msg, e.backend);
      var place := Lnpd.Creating(e.source);
      if Lnpd.At(s, place).Some? {
        assert Lnpd.Fits(place, Lnpd.At(s, place).value, s.pending);
      }
    }
  }

  // ---------- Deliveries ----------

  lemma DeliverFrame(n: Node, l: Link, v: Channeld.Verdict, backend: Launch.Backend)
    requires Q(n, l) != []
    ensures
      var n' := Deliver(n, l, v, backend).node;
      && (!FundingSafety.ToBroker(l) ==> n'.lnpd == n.lnpd)
      && (l != ChanPeer ==> n'.peers == n.peers)
  {
    var e, n0 := Q(n, l)[0], Pop(n, l);
    match l
    case SignLnpd | ChanLnpd | PeerLnpd =>
      var effect := BrokerEffect(n0, e, backend);
      PostAllFrame(n0.(lnpd := effect.state), Broker, effect.sends);
    case LnpdChan | SignChan | WatchChan | RouteChan | PeerChan =>
      ChanTakesFrame(n0, e, v);
    case _ =>
  }

  lemma ChanTakesFrame(n: Node, e: Envelope, v: Channeld.Verdict)
    ensures var n' := ChanTakes(n, e, v).node; n'.lnpd == n.lnpd && n'.peers == n.peers
  {
    if n.chan.Some? && n.chan.value.identity == e.dest {
      var d := n.chan.value;
      var r := Channeld.Handle(d, e.source, e.msg, v);
      var entry := Consumed(d.state.machine, e.msg, v.core, r.sends);
      PostAllFrame(n.(chan := Some(r.d), history := n.history + [entry]), Chan, r.sends);
    }
  }

  lemma SettleRegisters(n: Node, effect: Lnpd.Effect)
    ensures Settle(n, effect).node.lnpd.channels ==
            if effect.status == Lnpd.Panic then n.lnpd.channels else effect.state.channels
  {
    PostAllFrame(n.(lnpd := effect.state), Broker, effect.sends);
  }

  lemma DeliverToBroker(n: Node, l: Link, v: Channeld.Verdict, backend: Launch.Backend, ctl: CtlMsg)
    requires Q(n, l) != [] && FundingSafety.ToBroker(l) && Q(n, l)[0].msg == Ctl(ctl)
    requires Lnpd.HandleCtl(n.lnpd, Q(n, l)[0].source, ctl, backend).status == Lnpd.Panic ==>
               Reregistered(n.lnpd, Q(n, l)[0].source, ctl, backend) == n.lnpd.channels
    ensures Deliver(n, l, v, backend).node.lnpd.channels == Reregistered(n.lnpd, Q(n, l)[0].source, ctl, backend)
  {
    var e, n0 := Q(n, l)[0], Pop(n, l);
    ControlRegisters(n.lnpd, e.source, ctl, backend);
    SettleRegisters(n0, BrokerEffect(n0, e, backend));
  }

  lemma PeerMessageRegisters(n: Node, e: Envelope, backend: Launch.Backend)
    requires e.msg.Bolt?
    ensures BrokerEffect(n, e, backend).state.channels == n.lnpd.channels
  {
  }

  lemma DeliverOpening(n: Node, v: Channeld.Verdict, backend: Launch.Backend)
    requires Q(n, PeerLnpd) != [] && Q(n, PeerLnpd)[0].msg.Bolt?
    ensures Deliver(n, PeerLnpd, v, backend).node.lnpd.channels == n.lnpd.channels
  {
    var e, n0 := Q(n, PeerLnpd)[0], Pop(n, PeerLnpd);
    PeerMessageRegisters(n0, e, backend);
    SettleRegisters(n0, BrokerEffect(n0, e, backend));
  }

  // ---------- Steps ----------

  /** Nothing is registered anew between the stages, except what is said about `side`. */
  predicate SameIds(c: Setup, s: Stage, s': Stage, side: Side, lnpd: bool, peerd: bool) {
    var other := Opposite(side);
    && LnpdId(c, s', other) == LnpdId(c, s, other) && PeerdId(c, s', other) == PeerdId(c, s, other)
    && (lnpd ==> LnpdId(c, s', side) == LnpdId(c, s, side))
    && (peerd ==> PeerdId(c, s', side) == PeerdId(c, s, side))
    && (s'.Good? && s'.m >= 15 && !(s.Good? && s.m >= 15 && s'.psbt == s.psbt) ==> s'.Id() != c.temp)
  }

  /** The node of `side` after the delivery, and the other node, are registered as they should. */
  lemma TakeRegisters(c: Setup, g: Joint, s: Stage, s': Stage, side: Side, l: Link, backend: Launch.Backend, n': Node)
    requires Registered(c, g, s) && Q(At(g, side), l) != [] && n' == Deliver(At(g, side), l, c.v, backend).node
    requires SameIds(c, s, s', side, false, false)
    requires LnpdHolds(c, n', s', side) && PeerdHolds(c, n', s', side)
    ensures Registered(c, Next(c, g, Take(side, l, backend)), s')
  {
    var g' := Next(c, g, Take(side, l, backend));
    assert At(g', side) == n' && At(g', Opposite(side)) == At(g, Opposite(side));
  }

  /** A control message is taken by lnpd. */
  lemma BrokerRegisters(c: Setup, g: Joint, s: Stage, s': Stage, side: Side, l: Link, ctl: CtlMsg, backend: Launch.Backend)
    requires Registered(c, g, s) && FundingSafety.ToBroker(l) && Q(At(g, side), l) != [] && Q(At(g, side), l)[0].msg == Ctl(ctl)
    requires SameIds(c, s, s', side, false, true)
    requires HoldsId(Reregistered(At(g, side).lnpd, Q(At(g, side), l)[0].source, ctl, backend), LnpdId(c, s', side), c.temp)
    requires ctl.Hello? || ctl.ConstructFunding? ==>
               Lnpd.HandleCtl(At(g, side).lnpd, Q(At(g, side), l)[0].source, ctl, backend).status != Lnpd.Panic
    ensures Registered(c, Next(c, g, Take(side, l, backend)), s')
  {
    var n := At(g, side);
    DeliverFrame(n, l, c.v, backend);
    DeliverToBroker(n, l, c.v, backend, ctl);
    TakeRegisters(c, g, s, s', side, l, backend, Deliver(n, l, c.v, backend).node);
  }

  lemma QuietStage(c: Setup, s: Stage, x: Spot, backend: Launch.Backend)
    requires WellStaged(s) && x in Inflight(c, s) && x.On? && !FundingSafety.ToBroker(x.link) && x.link != ChanPeer
    ensures SameIds(c, s, Advance(s, Take(x.side, x.link, backend)), x.side, true, true)
  {
    if s.Good? {
      if x in Before(c, s) {
        BesideDue(c, s, x);
      } else if s.m == 24 {
        PublicationDue(c, s, x);
      } else {
        TokenDue(c, s, x.side, x.link, x.e);
        if s.m != 14 {
          TokenAdvances(c, s, x.side, x.link, x.e, backend);
        }
      }
    }
  }

  lemma LeavingStage(c: Setup, s: Stage, x: Spot, backend: Launch.Backend)
    requires WellStaged(s) && x in Inflight(c, s) && x.On? && x.link == ChanPeer
    ensures s.Good? && Leaving(x.side, s.m) && x == Token(c, s) && x.e.msg.Bolt?
    ensures
      var s' := Advance(s, Take(x.side, x.link, backend));
      SameIds(c, s, s', x.side, true, false)
  {
    if s.Good? {
      if x in Before(c, s) {
        BesideDue(c, s, x);
      } else if s.m == 24 {
        PublicationDue(c, s, x);
      } else {
        TokenDue(c, s, x.side, x.link, x.e);
        TokenAdvances(c, s, x.side, x.link, x.e, backend);
      }
    }
  }

  lemma OutgoingHolds(c: Setup, s: Stage, side: Side, peers: set<Peerd.ActiveId>)
    requires WellStaged(s) && s.Good? && Leaving(side, s.m) && HoldsId(peers, PeerdId(c, s, side), Peerd.Temporary(c.temp))
    ensures Token(c, s).On? && Token(c, s).e.msg.Bolt?
    ensures HoldsId(Peerd.Outgoing(peers, Token(c, s).e.msg.bolt), PeerdId(c, Onward(s), side), Peerd.Temporary(c.temp))
  {
  }

  lemma LeavingRegisters(c: Setup, g: Joint, s: Stage, side: Side, x: Spot, backend: Launch.Backend)
    requires x in Inflight(c, s) && x.On? && x.side == side && x.link == ChanPeer
    requires WellStaged(s) && Registered(c, g, s) && Q(At(g, side), ChanPeer) != [] && Q(At(g, side), ChanPeer)[0] == x.e
    ensures Registered(c, Next(c, g, Take(side, ChanPeer, backend)), Advance(s, Take(side, ChanPeer, backend)))
  {
    var n := At(g, side);
    LeavingStage(c, s, x, backend);
    TokenAdvances(c, s, side, ChanPeer, x.e, backend);
    OutgoingHolds(c, s, side, n.peers);
    DeliverFrame(n, ChanPeer, c.v, backend);
    TakeRegisters(c, g, s, Onward(s), side, ChanPeer, backend, Deliver(n, ChanPeer, c.v, backend).node);
  }

  lemma HelloNeverPanics(s: Lnpd.State, source: ServiceId, backend: Launch.Backend)
    ensures Lnpd.HandleCtl(s, source, Hello, backend).status != Lnpd.Panic
  {
    var place := Lnpd.Creating(source);
    if Lnpd.At(s, place).Some? {
      var l := Lnpd.At(s, place).value;
      Lnpd.ControlDrives(s, source, Hello, backend, place);
      HelloDrivesOn(l, source, s.params, s.pending, backend);
    } else {
      assert Lnpd.At(Lnpd.Register(s, source), place).None?;
    }
  }

  lemma HelloDrivesOn(l: Launch.ChannelLauncher, source: ServiceId, params: ChannelParams,
                      pending: map<Slice32, Reservations.PendingFunding>, backend: Launch.Backend)
    ensures !Launch.Next(l, source, Hello, params, pending, backend).outcome.Panicked?
  {
  }

  /** A greeting under the id that the next stage shows. */
  lemma GreetedHolds(c: Setup, g: Joint, s: Stage, s': Stage, side: Side, id: Slice32, backend: Launch.Backend)
    requires Registered(c, g, s) && SameIds(c, s, s', side, false, true)
    requires Q(At(g, side), ChanLnpd) != [] && Q(At(g, side), ChanLnpd)[0] == Envelope(Channel(id), LnpBroker, Ctl(Hello))
    requires LnpdId(c, s', side) == Some(id) && (id != c.temp ==> LnpdId(c, s, side) == Some(id))
    ensures Registered(c, Next(c, g, Take(side, ChanLnpd, backend)), s')
  {
    HelloNeverPanics(At(g, side).lnpd, Channel(id), backend);
    BrokerRegisters(c, g, s, s', side, ChanLnpd, Hello, backend);
  }

  lemma EarlyRegisters(c: Setup, g: Joint, s: Stage, backend: Launch.Backend)
    requires Shape(c, g, s) && Registered(c, g, s) && s.Good? && s.m <= 2
    requires Q(g.a, ChanLnpd) != []
    ensures Registered(c, Next(c, g, Take(Funder, ChanLnpd, backend)), Advance(s, Take(Funder, ChanLnpd, backend)))
  {
    var e := Envelope(Channel(c.temp), LnpBroker, Ctl(Hello));
    assert Q(g.a, ChanLnpd) == OnLink(Inflight(c, s), Funder, ChanLnpd);
    var x := SomeOnLink(Inflight(c, s), Funder, ChanLnpd);
    assert x.e == e;
    GreetedHolds(c, g, s, Advance(s, Take(Funder, ChanLnpd, backend)), Funder, c.temp, backend);
  }

  lemma GreetingAgainRegisters(c: Setup, g: Joint, s: Stage, backend: Launch.Backend)
    requires Shape(c, g, s) && Registered(c, g, s) && s.Good? && s.hello
    ensures Q(g.a, ChanLnpd) != []
    ensures Registered(c, Next(c, g, Take(Funder, ChanLnpd, backend)), Advance(s, Take(Funder, ChanLnpd, backend)))
  {
    var e := Envelope(Channel(s.Id()), LnpBroker, Ctl(Hello));
    GreetingInflight(c, s, e);
    Head(g, [], Inflight(c, s.(hello := false)), Funder, ChanLnpd, e);
    GreetedHolds(c, g, s, s.(hello := false), Funder, s.Id(), backend);
  }

  lemma FundingRegisters(c: Setup, g: Joint, s: Stage, backend: Launch.Backend)
    requires Shape(c, g, s) && Registered(c, g, s) && s.Good? && s.m == 14 && Enabled(c, g, Take(Funder, ChanLnpd, backend))
    ensures Registered(c, Next(c, g, Take(Funder, ChanLnpd, backend)), Advance(s, Take(Funder, ChanLnpd, backend)))
  {
    assert Q(g.a, ChanLnpd) == OnLink(Inflight(c, s), Funder, ChanLnpd);
    var x := SomeOnLink(Inflight(c, s), Funder, ChanLnpd);
    assert x == Token(c, s);
    FundingRenames(c, g, s, x.e.msg.ctl.fund, backend);
  }

  lemma FundingRenames(c: Setup, g: Joint, s: Stage, fund: FundChannel, backend: Launch.Backend)
    requires Shape(c, g, s) && Registered(c, g, s) && s.Good? && s.m == 14
    requires Q(g.a, ChanLnpd) != [] && Q(g.a, ChanLnpd)[0] == Envelope(Channel(c.temp), LnpBroker, Ctl(ConstructFunding(fund)))
    requires Ledger.Fresh(g.a.lnpd, Lnpd.Control(Channel(c.temp), ConstructFunding(fund), backend)) && backend.funding.Funded?
    ensures Registered(c, Next(c, g, Take(Funder, ChanLnpd, backend)), s.(m := 15, psbt := backend.funding.psbt))
  {
    var ct, n := Channel(c.temp), g.a.lnpd;
    var s' := s.(m := 15, psbt := backend.funding.psbt);
    assert Lnpd.At(n, Lnpd.Creating(ct)) == Some(Launch.Negotiating(c.temp, c.client));
    assert n.creating[ct].Negotiating?;
    LnpdSteps.FundingInNegotiating(n, c.temp, c.client, fund, backend);
    BrokerRegisters(c, g, s, s', Funder, ChanLnpd, ConstructFunding(fund), backend);
  }

  /** Messages to lnpd that rename nothing. */
  lemma PlainRegisters(c: Setup, g: Joint, s: Stage, s': Stage, side: Side, l: Link, ctl: CtlMsg, backend: Launch.Backend)
    requires Registered(c, g, s) && FundingSafety.ToBroker(l) && Q(At(g, side), l) != [] && Q(At(g, side), l)[0].msg == Ctl(ctl)
    requires SameIds(c, s, s', side, true, true)
    requires ctl.Keyset? || ctl.Signed? || ctl.Error? || ctl.PublishFunding?
    ensures Registered(c, Next(c, g, Take(side, l, backend)), s')
  {
    BrokerRegisters(c, g, s, s', side, l, ctl, backend);
  }

  lemma PublishRegisters(c: Setup, g: Joint, s: Stage, backend: Launch.Backend)
    requires Shape(c, g, s) && Registered(c, g, s) && s.Good? && s.m == 24 && s.publish == 0 && !s.hello
    ensures Q(g.a, ChanLnpd) != []
    ensures Registered(c, Next(c, g, Take(Funder, ChanLnpd, backend)), Advance(s, Take(Funder, ChanLnpd, backend)))
  {
    var e := Envelope(Channel(s.Id()), LnpBroker, Ctl(PublishFunding));
    PublishInflight(c, s, e, Envelope(LnpBroker, Signer, Ctl(Sign(s.psbt))));
    Head(g, Before(c, s), Tracking(c, s), Funder, ChanLnpd, e);
    PlainRegisters(c, g, s, s.(publish := 1), Funder, ChanLnpd, PublishFunding, backend);
  }

  lemma FunderChanRegisters(c: Setup, g: Joint, s: Stage, backend: Launch.Backend)
    requires Shape(c, g, s) && Registered(c, g, s) && Enabled(c, g, Take(Funder, ChanLnpd, backend))
    ensures Registered(c, Next(c, g, Take(Funder, ChanLnpd, backend)), Advance(s, Take(Funder, ChanLnpd, backend)))
  {
    assert Q(g.a, ChanLnpd) == OnLink(Inflight(c, s), Funder, ChanLnpd);
    var x := SomeOnLink(Inflight(c, s), Funder, ChanLnpd);
    FunderChanDue(c, s, x);
    if s.m <= 2 {
      EarlyRegisters(c, g, s, backend);
    } else if s.hello {
      GreetingAgainRegisters(c, g, s, backend);
    } else if s.m == 14 {
      FundingRegisters(c, g, s, backend);
    } else {
      PublishRegisters(c, g, s, backend);
    }
  }

  lemma FunderChanDue(c: Setup, s: Stage, x: Spot)
    requires WellStaged(s) && x in Inflight(c, s) && x.On? && x.side == Funder && x.link == ChanLnpd
    ensures s.Good? && (s.m <= 2 || s.hello || s.m == 14 || (s.m == 24 && s.publish == 0))
  {
    if s.Good? {
      if x in Before(c, s) {
        BesideDue(c, s, x);
      } else if s.m == 24 {
        PublicationDue(c, s, x);
      } else {
        TokenDue(c, s, x.side, x.link, x.e);
      }
    }
  }

  lemma SignRegisters(c: Setup, g: Joint, s: Stage, side: Side, backend: Launch.Backend)
    requires Shape(c, g, s) && Registered(c, g, s) && Q(At(g, side), SignLnpd) != []
    ensures Registered(c, Next(c, g, Take(side, SignLnpd, backend)), Advance(s, Take(side, SignLnpd, backend)))
  {
    assert Q(At(g, side), SignLnpd) == OnLink(Inflight(c, s), side, SignLnpd);
    var x := SomeOnLink(Inflight(c, s), side, SignLnpd);
    SignDue(c, s, x, backend);
    PlainRegisters(c, g, s, Advance(s, Take(side, SignLnpd, backend)), side, SignLnpd, x.e.msg.ctl, backend);
  }

  lemma SignDue(c: Setup, s: Stage, x: Spot, backend: Launch.Backend)
    requires WellStaged(s) && x in Inflight(c, s) && x.On? && x.link == SignLnpd
    ensures x.side == Funder
    ensures x.e.msg.Ctl? && (x.e.msg.ctl.Keyset? || x.e.msg.ctl.Signed? || x.e.msg.ctl.Error?)
    ensures SameIds(c, s, Advance(s, Take(Funder, SignLnpd, backend)), Funder, true, true)
  {
    if s.Good? {
      if x in Before(c, s) {
        BesideDue(c, s, x);
      } else if s.m == 24 {
        PublicationDue(c, s, x);
      } else {
        TokenDue(c, s, x.side, x.link, x.e);
        assert s.m == 1;
      }
    }
  }

  lemma FundeeChanRegisters(c: Setup, g: Joint, s: Stage, backend: Launch.Backend)
    requires Shape(c, g, s) && Registered(c, g, s) && Q(g.b, ChanLnpd) != []
    ensures Registered(c, Next(c, g, Take(Fundee, ChanLnpd, backend)), Advance(s, Take(Fundee, ChanLnpd, backend)))
  {
    assert Q(g.b, ChanLnpd) == OnLink(Inflight(c, s), Fundee, ChanLnpd);
    var x := SomeOnLink(Inflight(c, s), Fundee, ChanLnpd);
    FundeeChanDue(c, s, x);
    if s.m == 7 {
      GreetedHolds(c, g, s, s.(m := 8), Fundee, c.temp, backend);
    } else {
      BrokerRegisters(c, g, s, s.(update := false), Fundee, ChanLnpd, ChannelUpdate(c.temp, s.Id()), backend);
    }
  }

  lemma FundeeChanDue(c: Setup, s: Stage, x: Spot)
    requires WellStaged(s) && x in Inflight(c, s) && x.On? && x.side == Fundee && x.link == ChanLnpd
    ensures s.Good?
    ensures || (s.m == 7 && !s.update && x.e == Envelope(Channel(c.temp), LnpBroker, Ctl(Hello)))
            || (s.update && x.e == Envelope(Channel(s.Id()), LnpBroker, Ctl(ChannelUpdate(c.temp, s.Id()))))
  {
    if s.Good? {
      if x in Before(c, s) {
        BesideDue(c, s, x);
      } else if s.m == 24 {
        PublicationDue(c, s, x);
      } else {
        TokenDue(c, s, x.side, x.link, x.e);
        assert s.m == 7;
      }
    }
  }

  lemma OpeningRegisters(c: Setup, g: Joint, s: Stage, side: Side, backend: Launch.Backend)
    requires Shape(c, g, s) && Registered(c, g, s) && Q(At(g, side), PeerLnpd) != []
    ensures Registered(c, Next(c, g, Take(side, PeerLnpd, backend)), Advance(s, Take(side, PeerLnpd, backend)))
  {
    var n := At(g, side);
    assert Q(n, PeerLnpd) == OnLink(Inflight(c, s), side, PeerLnpd);
    var x := SomeOnLink(Inflight(c, s), side, PeerLnpd);
    OpeningDue(c, s, x);
    DeliverFrame(n, PeerLnpd, c.v, backend);
    DeliverOpening(n, c.v, backend);
    TakeRegisters(c, g, s, s.(m := 7), side, PeerLnpd, backend, Deliver(n, PeerLnpd, c.v, backend).node);
  }

  lemma OpeningDue(c: Setup, s: Stage, x: Spot)
    requires WellStaged(s) && x in Inflight(c, s) && x.On? && x.link == PeerLnpd
    ensures s.Good? && s.m == 6 && x.side == Fundee && x.e.msg.Bolt?
  {
    if s.Good? {
      if x in Before(c, s) {
        BesideDue(c, s, x);
      } else if s.m == 24 {
        PublicationDue(c, s, x);
      } else {
        TokenDue(c, s, x.side, x.link, x.e);
      }
    }
  }

  lemma QuietRegisters(c: Setup, g: Joint, s: Stage, side: Side, l: Link, backend: Launch.Backend)
    requires Shape(c, g, s) && Registered(c, g, s) && Q(At(g, side), l) != []
    requires !FundingSafety.ToBroker(l) && l != ChanPeer
    ensures Registered(c, Next(c, g, Take(side, l, backend)), Advance(s, Take(side, l, backend)))
  {
    var n := At(g, side);
    assert Q(n, l) == OnLink(Inflight(c, s), side, l);
    var x := SomeOnLink(Inflight(c, s), side, l);
    QuietStage(c, s, x, backend);
    DeliverFrame(n, l, c.v, backend);
    TakeRegisters(c, g, s, Advance(s, Take(side, l, backend)), side, l, backend, Deliver(n, l, c.v, backend).node);
  }

  lemma TakeKeepsRegistered(c: Setup, g: Joint, s: Stage, side: Side, l: Link, backend: Launch.Backend)
    requires Shape(c, g, s) && Registered(c, g, s) && Enabled(c, g, Take(side, l, backend))
    ensures Registered(c, Next(c, g, Take(side, l, backend)), Advance(s, Take(side, l, backend)))
  {
    if FundingSafety.ToBroker(l) {
      BrokerKeepsRegistered(c, g, s, side, l, backend);
    } else if l == ChanPeer {
      var x := HeadSpot(c, g, s, side, l);
      LeavingRegisters(c, g, s, side, x, backend);
    } else {
      QuietRegisters(c, g, s, side, l, backend);
    }
  }

  lemma BrokerKeepsRegistered(c: Setup, g: Joint, s: Stage, side: Side, l: Link, backend: Launch.Backend)
    requires Shape(c, g, s) && Registered(c, g, s) && Enabled(c, g, Take(side, l, backend)) && FundingSafety.ToBroker(l)
    ensures Registered(c, Next(c, g, Take(side, l, backend)), Advance(s, Take(side, l, backend)))
  {
    if l == SignLnpd {
      SignRegisters(c, g, s, side, backend);
    } else if l == PeerLnpd {
      OpeningRegisters(c, g, s, side, backend);
    } else {
      ChanKeepsRegistered(c, g, s, side, backend);
    }
  }

  lemma ChanKeepsRegistered(c: Setup, g: Joint, s: Stage, side: Side, backend: Launch.Backend)
    requires Shape(c, g, s) && Registered(c, g, s) && Enabled(c, g, Take(side, ChanLnpd, backend))
    ensures Registered(c, Next(c, g, Take(side, ChanLnpd, backend)), Advance(s, Take(side, ChanLnpd, backend)))
  {
    if side == Funder {
      FunderChanRegisters(c, g, s, backend);
    } else {
      FundeeChanRegisters(c, g, s, backend);
    }
  }

  lemma IncomingHolds(c: Setup, s: Stage, to: Side, peers: set<Peerd.ActiveId>)
    requires WellStaged(s) && s.Good? && Crossing(to, s.m) && HoldsId(peers, PeerdId(c, s, to), Peerd.Temporary(c.temp))
    ensures Token(c, s).Wire? && SameIds(c, s, Onward(s), to, true, false)
    ensures HoldsId(Peerd.Incoming(peers, Token(c, s).ln), PeerdId(c, Onward(s), to), Peerd.Temporary(c.temp))
  {
  }

  lemma CrossRegisters(c: Setup, g: Joint, s: Stage, to: Side)
    requires Shape(c, g, s) && Registered(c, g, s) && Enabled(c, g, Cross(to))
    ensures Registered(c, Next(c, g, Cross(to)), Advance(s, Cross(to)))
  {
    assert WireTo(g, to) == OnWire(Inflight(c, s), to);
    var x := SomeOnWire(Inflight(c, s), to);
    WireDue(c, s, x);
    CrossingInflight(c, s, to);
    var ln := Token(c, s).ln;
    BeforeElsewhere(c, s, to, PeerChan);
    OnWireConcat(Before(c, s), [Token(c, s)], to);
    SingleSpot(Token(c, s), to, PeerChan);
    IncomingHolds(c, s, to, At(g, to).peers);
    CrossedNode(c, g, to, ln);
  }

  lemma CrossedNode(c: Setup, g: Joint, to: Side, ln: LnMsg)
    requires WireTo(g, to) == [ln]
    ensures
      var n, n' := At(g, to), At(Next(c, g, Cross(to)), to);
      && n'.lnpd == n.lnpd && n'.peers == Peerd.Incoming(n.peers, ln)
      && At(Next(c, g, Cross(to)), Opposite(to)) == At(g, Opposite(to))
  {
  }

  lemma ElsewhereRegisters(c: Setup, g: Joint, s: Stage, side: Side, e: Lnpd.Event)
    requires Shape(c, g, s) && Registered(c, g, s) && Apart(e, OwnIds(c, g), OwnTxids(c, g))
    ensures Registered(c, Next(c, g, Elsewhere(side, e)), s)
  {
    ApartHolds(c, g, s, side, e);
    var n' := At(g, side).(lnpd := Lnpd.Step(At(g, side).lnpd, e).state);
    assert Next(c, g, Elsewhere(side, e)) == WithNode(g, side, n');
  }

  lemma ApartHolds(c: Setup, g: Joint, s: Stage, side: Side, e: Lnpd.Event)
    requires Shape(c, g, s) && LnpdHolds(c, At(g, side), s, side) && Apart(e, OwnIds(c, g), OwnTxids(c, g))
    ensures HoldsId(Lnpd.Step(At(g, side).lnpd, e).state.channels, LnpdId(c, s, side), c.temp)
  {
    var n := At(g, side).lnpd;
    ApartRegisters(n, e, OwnIds(c, g), OwnTxids(c, g), c.temp);
    if s.Good? && s.m >= 15 {
      assert s.psbt.txid in OwnTxids(c, g);
      assert s.Id() in OwnIds(c, g);
      ApartRegisters(n, e, OwnIds(c, g), OwnTxids(c, g), s.Id());
    }
    HoldsAlike(n.channels, Lnpd.Step(n, e).state.channels, LnpdId(c, s, side), c.temp);
  }

  lemma HoldsAlike<T>(xs: set<T>, ys: set<T>, id: Option<T>, temp: T)
    requires temp in ys <==> temp in xs
    requires id.Some? ==> (id.value in ys <==> id.value in xs)
    ensures HoldsId(ys, id, temp) <==> HoldsId(xs, id, temp)
  {
  }

  /** Every step keeps the registries right. */
  lemma StepKeepsRegistered(c: Setup, g: Joint, s: Stage, act: Action)
    requires Shape(c, g, s) && Registered(c, g, s) && Enabled(c, g, act)
    ensures Registered(c, Next(c, g, act), Advance(s, act))
  {
    match act
    case Take(side, l, backend) =>
      TakeKeepsRegistered(c, g, s, side, l, backend);
    case Cross(to) =>
      CrossRegisters(c, g, s, to);
    case Find(txid) =>
      FindRegisters(c, g, s, txid);
    case Elsewhere(side, e) =>
      ElsewhereRegisters(c, g, s, side, e);
  }

  lemma FindRegisters(c: Setup, g: Joint, s: Stage, txid: Slice32)
    requires Shape(c, g, s) && Registered(c, g, s) && txid in g.a.tracked && txid in g.chain
    ensures Registered(c, Next(c, g, Find(txid)), Advance(s, Find(txid)))
  {
    assert s.Good? && s.m == 24;
    var n' := WatchdFinds(g.a, txid);
    assert n'.lnpd == g.a.lnpd && n'.peers == g.a.peers;
  }

  lemma {:induction false} RunKeepsRegistered(c: Setup, g: Joint, s: Stage, acts: seq<Action>)
    requires Shape(c, g, s) && Registered(c, g, s) && Valid(c, g, acts)
    ensures Registered(c, After(c, g, acts), Fold(s, acts))
    decreases |acts|
  {
    if acts != [] {
      Simulates(c, g, s, acts[0]);
      StepKeepsRegistered(c, g, s, acts[0]);
      RunKeepsRegistered(c, Next(c, g, acts[0]), Advance(s, acts[0]), acts[1..]);
    }
  }
}
