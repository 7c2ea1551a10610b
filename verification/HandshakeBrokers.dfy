/** The remaining steps of the brokers in a joint run: the greeting that comes too early, the
    fundee's lnpd, and activity on other channels. */
module HandshakeBrokers {
  import opened Types
  import opened Node
  import opened Handshake
  import opened HandshakeSteps
  import Reservations
  import Launch
  import Lnpd
  import Ledger
  import Channeld
  import LnpdSteps

  // ---------- A greeting taken before the keyset ----------

  lemma EarlyHelloInflight(c: Setup, s: Stage, e: Envelope)
    requires WellStaged(s) && s.Good? && s.m <= 1 && e == Envelope(Channel(c.temp), LnpBroker, Ctl(Hello))
    ensures Inflight(c, s) == [] + [On(Funder, ChanLnpd, e)] + Astray(c, s.m)
    ensures [] + Astray(c, s.m) + Spots(Funder, Broker, []) == Inflight(c, Bad(s.m))
  {
    assert Before(c, s) == [On(Funder, ChanLnpd, e)];
    assert Astray(c, s.m) == [Token(c, s)];
  }

  lemma EarlyHelloStep(c: Setup, g: Joint, s: Stage, backend: Launch.Backend)
    requires Shape(c, g, s) && s.Good? && s.m <= 1
    ensures Q(g.a, ChanLnpd) != []
    ensures Shape(c, Next(c, g, Take(Funder, ChanLnpd, backend)), Bad(s.m))
  {
    var ct := Channel(c.temp);
    var e := Envelope(ct, LnpBroker, Ctl(Hello));
    var n := g.a.lnpd;
    EarlyHelloInflight(c, s, e);
    assert Lnpd.At(n, Lnpd.Creating(ct)) == Some(Launch.Init(c.temp, c.request, c.client));
    LnpdSteps.HelloInInit(n, c.temp, c.request, c.client, backend);
    var launcher := Launch.Deriving(c.temp, c.request, c.client);
    var effect := Lnpd.Quiet(Lnpd.Register(n, ct).(creating := n.creating[ct := launcher]));
    LnpdInvStays(n, ct, Hello, backend, effect.state);
    assert Lnpd.At(effect.state, Lnpd.Creating(ct)) == Some(launcher);
    FunderBrokerStep(c, g, s, Bad(s.m), ChanLnpd, e, Hello, [], Astray(c, s.m), backend, effect);
  }

  lemma AstrayInflight(c: Setup, n: Node, k: nat, e: Envelope, reply: Envelope)
    requires k == 0 || k == 2
    requires Astray(c, k) == [On(Funder, LnpdSign, e)] && n.keys == c.aKeys
    requires reply == Envelope(Signer, e.source, Ctl(SigndReply(n, e)))
    ensures WellStaged(Bad(k + 1)) && SameScene(c, Bad(k), Bad(k + 1))
    ensures Inflight(c, Bad(k)) == [] + [On(Funder, LnpdSign, e)] + []
    ensures [] + [] + Spots(Funder, Signd, [reply]) == Inflight(c, Bad(k + 1))
  {
    SpotsOfFew(Funder, Signd, [reply]);
  }

  /** signd derives the keyset; it has no use for a channel proposal and says so. */
  lemma AstraySigndStep(c: Setup, g: Joint, k: nat, backend: Launch.Backend)
    requires Shape(c, g, Bad(k)) && (k == 0 || k == 2)
    ensures Q(g.a, LnpdSign) != []
    ensures Shape(c, Next(c, g, Take(Funder, LnpdSign, backend)), Bad(k + 1))
  {
    var e := Astray(c, k)[0].e;
    var reply := Envelope(Signer, e.source, Ctl(SigndReply(g.a, e)));
    AstrayInflight(c, g.a, k, e, reply);
    Head(g, [], [], Funder, LnpdSign, e);
    SigndPasses(g.a, LnpdSign, e, c.v, backend);
    PassStep(c, g, Bad(k), Bad(k + 1), Funder, LnpdSign, e, [], [], Signd, [reply], backend);
  }

  lemma LateKeysetInflight(c: Setup, e: Envelope, sent: Envelope)
    requires e == Envelope(Signer, LnpBroker, Ctl(Keyset(Channel(c.temp), c.aKeys)))
    requires sent == Envelope(LnpBroker, Signer, Ctl(OpenWith(Launch.Proposal(c.request, c.aParams, c.aKeys))))
    ensures Inflight(c, Bad(1)) == [] + [On(Funder, SignLnpd, e)] + []
    ensures [] + [] + Spots(Funder, Broker, [sent]) == Inflight(c, Bad(2))
  {
    SpotsOfFew(Funder, Broker, [sent]);
  }

  /** The proposal is sent to the signer instead of the channel daemon. */
  lemma LateKeysetStep(c: Setup, g: Joint, backend: Launch.Backend)
    requires Shape(c, g, Bad(1))
    ensures Q(g.a, SignLnpd) != []
    ensures Shape(c, Next(c, g, Take(Funder, SignLnpd, backend)), Bad(2))
  {
    var ct := Channel(c.temp);
    var ctl := Keyset(ct, c.aKeys);
    var e := Envelope(Signer, LnpBroker, Ctl(ctl));
    var sent := Envelope(LnpBroker, Signer, Ctl(OpenWith(Launch.Proposal(c.request, c.aParams, c.aKeys))));
    var n := g.a.lnpd;
    LateKeysetInflight(c, e, sent);
    assert Lnpd.At(n, Lnpd.Creating(ct)) == Some(Launch.Deriving(c.temp, c.request, c.client));
    LnpdSteps.KeysetInDeriving(n, c.temp, c.request, c.client, c.aKeys, backend);
    var launcher := Launch.Negotiating(c.temp, c.client);
    var effect := Lnpd.Effect(n.(creating := n.creating[ct := launcher]), [sent], None, None, Lnpd.Ok);
    LnpdInvStays(n, Signer, ctl, backend, effect.state);
    assert Lnpd.At(effect.state, Lnpd.Creating(ct)) == Some(launcher);
    FunderBrokerStep(c, g, Bad(1), Bad(2), SignLnpd, e, ctl, [], [], backend, effect);
  }

  lemma PanicDelivers(n: Node, e: Envelope, v: Channeld.Verdict, backend: Launch.Backend)
    requires Q(n, SignLnpd) != [] && Q(n, SignLnpd)[0] == e && e == Envelope(Signer, LnpBroker, Ctl(Error(LnpBroker)))
    requires Lnpd.Keyed(n.lnpd)
    ensures Deliver(n, SignLnpd, v, backend) == Delivery(Pop(n, SignLnpd), [], None, Some(BrokerPanic))
  {
    LnpdSteps.ErrorAboutBroker(n.lnpd, backend);
  }

  /** The signer's error names lnpd, which holds no launcher under its own identity. */
  lemma PanicStep(c: Setup, g: Joint, backend: Launch.Backend)
    requires Shape(c, g, Bad(3))
    ensures Q(g.a, SignLnpd) != []
    ensures Shape(c, Next(c, g, Take(Funder, SignLnpd, backend)), Bad(4))
  {
    var e := Envelope(Signer, LnpBroker, Ctl(Error(LnpBroker)));
    assert Inflight(c, Bad(3)) == [] + [On(Funder, SignLnpd, e)] + [];
    assert [] + [] + Spots(Funder, Broker, []) == Inflight(c, Bad(4));
    Head(g, [], [], Funder, SignLnpd, e);
    PanicDelivers(g.a, e, c.v, backend);
    var n1 := Pop(g.a, SignLnpd);
    StageTrade(c, g, Bad(3), Bad(4), Funder, SignLnpd, e, [], [], Broker, [], n1);
    var g' := WithNode(g, Funder, n1).(fault := Some(BrokerPanic));
    assert Carries(g', Inflight(c, Bad(4)));
    assert Next(c, g, Take(Funder, SignLnpd, backend)) == g' by {
      assert g.ab + [] == g.ab && g.chain + {} == g.chain;
    }
    BrokersStay(c, g, g', Bad(3), Bad(4));
  }

  // ---------- The fundee's lnpd ----------

  /** The fundee's lnpd takes a message; the funder's side does not notice. */
  lemma FundeeBrokerShape(c: Setup, g: Joint, s: Stage, s': Stage, n': Node)
    requires Shape(c, g, s) && WellStaged(s') && s.Good? && s'.Good?
    requires n'.remote == g.b.remote && n'.keys == g.b.keys && DaemonFits(c, n', s', Fundee)
    requires FundeeBroker(c, n'.lnpd, s') && Carries(WithNode(g, Fundee, n'), Inflight(c, s'))
    requires ExpectedFace(c, s', Funder) == ExpectedFace(c, s, Funder)
    requires LauncherAt(c, s') == LauncherAt(c, s) && ReservedFor(c, s') == ReservedFor(c, s)
    requires Chain(g, s')
    ensures Shape(c, WithNode(g, Fundee, n'), s')
  {
  }

  lemma OpeningInflight(c: Setup, s: Stage, e: Envelope, hello: Envelope)
    requires WellStaged(s) && s.Good? && s.m == 6
    requires e == Envelope(PeerBolt(c.bRemote), LnpBroker, Bolt(Opening(c)))
    requires hello == Envelope(Channel(c.temp), LnpBroker, Ctl(Hello))
    ensures WellStaged(Onward(s))
    ensures Inflight(c, s) == [] + [On(Fundee, PeerLnpd, e)] + []
    ensures [] + [] + Spots(Fundee, Chan, [hello]) == Inflight(c, Onward(s))
  {
    SpotsOfFew(Fundee, Chan, [hello]);
  }

  /** lnpd remembers the proposal and launches a channel daemon, which greets it. */
  lemma OpeningDelivers(n: Node, e: Envelope, remote: NodeId, ln: LnMsg, v: Channeld.Verdict, backend: Launch.Backend)
    requires Q(n, PeerLnpd) != [] && Q(n, PeerLnpd)[0] == e && e == Envelope(PeerBolt(remote), LnpBroker, Bolt(ln))
    requires ln.OpenChannel? && n.chan.None?
    ensures
      var p := n.lnpd.params;
      var accept := AcceptChannelFrom(remote, p.policy, p.common, p.local, ln.temp);
      var s' := n.lnpd.(accepting := n.lnpd.accepting[Channel(ln.temp) := accept]);
      var n1 := Pop(n, PeerLnpd).(lnpd := s', chan := Some(Channeld.Spawn(ln.temp)));
      Deliver(n, PeerLnpd, v, backend) == Fine(PostAll(n1, Chan, [Envelope(Channel(ln.temp), LnpBroker, Ctl(Hello))]))
  {
    var p := n.lnpd.params;
    var accept := AcceptChannelFrom(remote, p.policy, p.common, p.local, ln.temp);
    var s' := n.lnpd.(accepting := n.lnpd.accepting[Channel(ln.temp) := accept]);
    var n1 := Pop(n, PeerLnpd).(lnpd := s', chan := Some(Channeld.Spawn(ln.temp)));
    PostOne(n1, Chan, Envelope(Channel(ln.temp), LnpBroker, Ctl(Hello)));
  }

  lemma OpeningStep(c: Setup, g: Joint, s: Stage, backend: Launch.Backend)
    requires Shape(c, g, s) && s.Good? && s.m == 6
    ensures Q(g.b, PeerLnpd) != []
    ensures Shape(c, Next(c, g, Take(Fundee, PeerLnpd, backend)), Onward(s))
  {
    var ct, n := Channel(c.temp), g.b.lnpd;
    var e := Envelope(PeerBolt(c.bRemote), LnpBroker, Bolt(Opening(c)));
    var hello := Envelope(ct, LnpBroker, Ctl(Hello));
    OpeningInflight(c, s, e, hello);
    Head(g, [], [], Fundee, PeerLnpd, e);
    OpeningDelivers(g.b, e, c.bRemote, Opening(c), c.v, backend);
    var s' := n.(accepting := n.accepting[ct := Accepted(c)]);
    Ledger.SameLaunchersInv(n, s');
    var n1 := Pop(g.b, PeerLnpd).(lnpd := s', chan := Some(Channeld.Spawn(c.temp)));
    StageTrade(c, g, s, Onward(s), Fundee, PeerLnpd, e, [], [], Chan, [hello], n1);
    PostAllFrame(n1, Chan, [hello]);
    QuietNext(c, g, Fundee, PeerLnpd, backend, PostAll(n1, Chan, [hello]));
    FundeeBrokerShape(c, g, s, Onward(s), PostAll(n1, Chan, [hello]));
  }

  /** One control message taken by the fundee's lnpd. */
  lemma FundeeBrokerStep(c: Setup, g: Joint, s: Stage, s': Stage, e: Envelope, ctl: CtlMsg,
                         xs: seq<Spot>, ys: seq<Spot>, backend: Launch.Backend, effect: Lnpd.Effect)
    requires Shape(c, g, s) && WellStaged(s') && e.msg == Ctl(ctl) && s.Good? && s'.Good?
    requires Inflight(c, s) == xs + [On(Fundee, ChanLnpd, e)] + ys && OnLink(xs, Fundee, ChanLnpd) == []
    requires SameMessages(xs + ys + Spots(Fundee, Broker, effect.sends), Inflight(c, s'))
    requires effect == Lnpd.HandleCtl(g.b.lnpd, e.source, ctl, backend)
    requires effect.status == Lnpd.Ok && effect.launched.None? && effect.broadcast.None?
    requires FundeeBroker(c, effect.state, s')
    requires ExpectedFace(c, s', Funder) == ExpectedFace(c, s, Funder) && ExpectedFace(c, s', Fundee) == ExpectedFace(c, s, Fundee)
    requires LauncherAt(c, s') == LauncherAt(c, s) && ReservedFor(c, s') == ReservedFor(c, s)
    requires Chain(g, s')
    ensures Q(g.b, ChanLnpd) != []
    ensures Shape(c, Next(c, g, Take(Fundee, ChanLnpd, backend)), s')
  {
    Head(g, xs, ys, Fundee, ChanLnpd, e);
    BrokerDelivers(g.b, ChanLnpd, e, ctl, c.v, backend, effect);
    var n1 := Pop(g.b, ChanLnpd).(lnpd := effect.state);
    StageTrade(c, g, s, s', Fundee, ChanLnpd, e, xs, ys, Broker, effect.sends, n1);
    PostAllFrame(n1, Broker, effect.sends);
    var n' := PostAll(n1, Broker, effect.sends);
    QuietNext(c, g, Fundee, ChanLnpd, backend, n');
    FundeeBrokerShape(c, g, s, s', n');
  }

  lemma AcceptingInflight(c: Setup, s: Stage, e: Envelope, sent: Envelope)
    requires WellStaged(s) && s.Good? && s.m == 7 && e == Envelope(Channel(c.temp), LnpBroker, Ctl(Hello))
    requires sent == Envelope(LnpBroker, Channel(c.temp), Ctl(AcceptFrom(Accepted(c))))
    ensures WellStaged(Onward(s))
    ensures Inflight(c, s) == [] + [On(Fundee, ChanLnpd, e)] + []
    ensures [] + [] + Spots(Fundee, Broker, [sent]) == Inflight(c, Onward(s))
  {
    SpotsOfFew(Fundee, Broker, [sent]);
  }

  lemma AcceptingStep(c: Setup, g: Joint, s: Stage, backend: Launch.Backend)
    requires Shape(c, g, s) && s.Good? && s.m == 7
    ensures Q(g.b, ChanLnpd) != []
    ensures Shape(c, Next(c, g, Take(Fundee, ChanLnpd, backend)), Onward(s))
  {
    var ct, n := Channel(c.temp), g.b.lnpd;
    var e := Envelope(ct, LnpBroker, Ctl(Hello));
    var sent := Envelope(LnpBroker, ct, Ctl(AcceptFrom(Accepted(c))));
    AcceptingInflight(c, s, e, sent);
    LnpdSteps.HelloFromAccepting(n, c.temp, backend);
    var effect := Lnpd.Effect(Lnpd.Register(n, ct).(accepting := n.accepting - {ct}), [sent], None, None, Lnpd.Ok);
    Ledger.SameLaunchersInv(n, effect.state);
    FundeeBrokerStep(c, g, s, Onward(s), e, Hello, [], [], backend, effect);
  }

  /** The messages behind the side strands. */
  function Behind(c: Setup, s: Stage): seq<Spot>
    requires s.Good?
  {
    if s.m == 24 then Publication(c, s) + Tracking(c, s)
    else if Token(c, s).Nowhere? then []
    else [Token(c, s)]
  }

  function Noted(s: Stage): seq<Spot>
    requires s.Good?
  {
    if s.m == 29 then [On(Fundee, ChanRoute, Envelope(Channel(s.Id()), Router, Ctl(ChannelCreated(s.Id()))))] else []
  }

  lemma BeforeAndBehind(c: Setup, s: Stage)
    requires s.Good?
    ensures Inflight(c, s) == Before(c, s) + Behind(c, s)
  {
    if s.m == 24 {
      assert Before(c, s) + Publication(c, s) + Tracking(c, s) == Before(c, s) + (Publication(c, s) + Tracking(c, s));
    }
  }

  lemma Regroup(xs: seq<Spot>, y: Spot, mid: seq<Spot>, rest: seq<Spot>)
    ensures xs + [y] + mid + rest == xs + [y] + (mid + rest)
    ensures xs + mid + rest == xs + (mid + rest) + []
  {
  }

  lemma UpdateInflight(c: Setup, s: Stage, e: Envelope, xs: seq<Spot>)
    requires WellStaged(s) && s.Good? && s.update
    requires e == Envelope(Channel(s.Id()), LnpBroker, Ctl(ChannelUpdate(c.temp, s.Id())))
    requires xs == if s.hello then [On(Funder, ChanLnpd, Envelope(Channel(s.Id()), LnpBroker, Ctl(Hello)))] else []
    ensures WellStaged(s.(update := false))
    ensures Inflight(c, s) == xs + [On(Fundee, ChanLnpd, e)] + (Noted(s) + Behind(c, s))
    ensures Inflight(c, s.(update := false)) == xs + (Noted(s) + Behind(c, s)) + Spots(Fundee, Broker, [])
    ensures OnLink(xs, Fundee, ChanLnpd) == []
  {
    NoneOnLink(xs, Fundee, ChanLnpd);
    UpdateBefore(c, s, e, xs);
    UpdateBehind(c, s);
    BeforeAndBehind(c, s);
    BeforeAndBehind(c, s.(update := false));
    Regroup(xs, On(Fundee, ChanLnpd, e), Noted(s), Behind(c, s));
  }

  /** What follows the side strands does not depend on the update. */
  lemma UpdateBehind(c: Setup, s: Stage)
    requires s.Good?
    ensures Behind(c, s.(update := false)) == Behind(c, s)
  {
  }

  lemma UpdateBefore(c: Setup, s: Stage, e: Envelope, xs: seq<Spot>)
    requires WellStaged(s) && s.Good? && s.update
    requires e == Envelope(Channel(s.Id()), LnpBroker, Ctl(ChannelUpdate(c.temp, s.Id())))
    requires xs == if s.hello then [On(Funder, ChanLnpd, Envelope(Channel(s.Id()), LnpBroker, Ctl(Hello)))] else []
    ensures Before(c, s) == xs + [On(Fundee, ChanLnpd, e)] + Noted(s) && Before(c, s.(update := false)) == xs + Noted(s)
  {
  }

  lemma UpdateScene(c: Setup, g: Joint, s: Stage)
    requires s.Good? && Chain(g, s)
    ensures
      var s' := s.(update := false);
      && ExpectedFace(c, s', Funder) == ExpectedFace(c, s, Funder)
      && ExpectedFace(c, s', Fundee) == ExpectedFace(c, s, Fundee) && Chain(g, s')
      && LauncherAt(c, s') == LauncherAt(c, s) && ReservedFor(c, s') == ReservedFor(c, s)
  {
  }

  /** The fundee's lnpd learns the permanent id. */
  lemma UpdateStep(c: Setup, g: Joint, s: Stage, backend: Launch.Backend)
    requires Shape(c, g, s) && s.Good? && s.update
    ensures Q(g.b, ChanLnpd) != []
    ensures Shape(c, Next(c, g, Take(Fundee, ChanLnpd, backend)), s.(update := false))
  {
    var cp, n := Channel(s.Id()), g.b.lnpd;
    var ctl := ChannelUpdate(c.temp, s.Id());
    var e := Envelope(cp, LnpBroker, Ctl(ctl));
    var xs := if s.hello then [On(Funder, ChanLnpd, Envelope(cp, LnpBroker, Ctl(Hello)))] else [];
    UpdateInflight(c, s, e, xs);
    UpdateScene(c, g, s);
    var effect := Lnpd.Quiet(Lnpd.UpdateChannelId(n, c.temp, s.Id()));
    Ledger.SameLaunchersInv(n, effect.state);
    FundeeBrokerStep(c, g, s, s.(update := false), e, ctl, xs, Noted(s) + Behind(c, s), backend, effect);
  }

  // ---------- Other channels ----------

  /** Driving one launcher leaves the others where they are, and reserves new funding only. */
  lemma DriveSpares(s: Lnpd.State, place: Lnpd.Place, l: Launch.ChannelLauncher, source: ServiceId, msg: CtlMsg,
                    backend: Launch.Backend, p: Lnpd.Place)
    requires Ledger.Driven(s, place, l, source, msg, backend) && p != place && Lnpd.At(s, p).Some?
    ensures Lnpd.At(Lnpd.Drive(s, place, l, source, msg, backend).state, p) == Lnpd.At(s, p)
  {
    var t := Launch.Next(l, source, msg, s.params, s.pending, backend);
    if t.outcome.Became? {
      Ledger.DestinationFree(s, place, l, source, msg, backend);
      PutSpares(s, place, l, msg, t, p);
    } else if !t.outcome.Panicked? {
      Ledger.DriveDrops(s, place, l, source, msg, backend);
    }
  }

  lemma PutSpares(s: Lnpd.State, place: Lnpd.Place, l: Launch.ChannelLauncher, msg: CtlMsg, t: Launch.Transition, p: Lnpd.Place)
    requires t.outcome.Became? && Lnpd.Destination(place, msg, t.outcome.launcher).Some?
    requires p != place && p != Lnpd.Destination(place, msg, t.outcome.launcher).value
    ensures Lnpd.At(Lnpd.Conclude(s, place, l, msg, t).state, p) == Lnpd.At(s, p)
  {
    var s1 := Lnpd.Absorb(Lnpd.Take(s, place), l, t);
    assert Lnpd.At(s1, p) == Lnpd.At(s, p);
  }

  /** What a driven launcher does to the reservations. */
  ghost predicate AddsOutside(before: Reservations.Table, after: Reservations.Table, ids: set<Slice32>) {
    && (forall x | x in before :: x in after && after[x] == before[x])
    && (forall x | x in after && x !in before :: after[x].temp !in ids)
  }

  lemma DriveReserves(s: Lnpd.State, place: Lnpd.Place, l: Launch.ChannelLauncher, source: ServiceId, msg: CtlMsg,
                      backend: Launch.Backend, ids: set<Slice32>)
    requires Ledger.Driven(s, place, l, source, msg, backend) && l.Id() !in ids
    ensures AddsOutside(s.pending, Lnpd.Drive(s, place, l, source, msg, backend).state.pending, ids)
  {
    var t := Launch.Next(l, source, msg, s.params, s.pending, backend);
    if t.outcome.Became? {
      Ledger.DestinationFree(s, place, l, source, msg, backend);
    } else if !t.outcome.Panicked? {
      Ledger.DriveDrops(s, place, l, source, msg, backend);
    }
  }

  predicate Avoids(e: Lnpd.Event, p: Lnpd.Place) {
    e.Control? ==> Lnpd.Addressed(e.source, e.msg) != Some(p)
  }

  /** An event about another launcher leaves the launcher at `p` there. */
  lemma LauncherStays(s: Lnpd.State, e: Lnpd.Event, p: Lnpd.Place)
    requires Ledger.Inv(s) && Ledger.Fresh(s, e) && Lnpd.At(s, p).Some? && Avoids(e, p)
    ensures Lnpd.At(Lnpd.Step(s, e).state, p) == Lnpd.At(s, p)
  {
    if e.Control? {
      var place := Lnpd.Addressed(e.source, e.msg);
      if place.Some? && Lnpd.At(s, place.value).Some? {
        var s0 := Lnpd.Greeted(s, e.source, e.msg);
        Ledger.SameLaunchersInv(s, s0);
        Lnpd.ControlDrives(s, e.source, e.msg, e.backend, place.value);
        assert Lnpd.At(s0, p) == Lnpd.At(s, p);
        DriveSpares(s0, place.value, Lnpd.At(s, place.value).value, Lnpd.EventSource(e.source, e.msg), e.msg, e.backend, p);
      } else {
        Lnpd.ControlSpares(s, e.source, e.msg, e.backend);
      }
    }
  }

  /** Reservations stay; a new one is made under an id outside `ids`. */
  lemma ReservationsStay(s: Lnpd.State, e: Lnpd.Event, ids: set<Slice32>, txids: set<Slice32>)
    requires Ledger.Inv(s) && Ledger.Fresh(s, e) && Apart(e, ids, txids)
    ensures AddsOutside(s.pending, Lnpd.Step(s, e).state.pending, ids)
  {
    if e.Control? && e.msg.ConstructFunding? {
      var place := Lnpd.Creating(e.source);
      if Lnpd.At(s, place).Some? {
        var l := Lnpd.At(s, place).value;
        Lnpd.ControlDrives(s, e.source, e.msg, e.backend, place);
        assert Lnpd.Fits(place, l, s.pending);
        DriveReserves(s, place, l, e.source, e.msg, e.backend, ids);
      } else {
        Lnpd.ControlSpares(s, e.source, e.msg, e.backend);
      }
    } else {
      Lnpd.PendingKept(s, e);
    }
  }

  /** Events leave the parameters alone, and the proposals waiting for daemons under `ids`. */
  lemma OthersStay(s: Lnpd.State, e: Lnpd.Event, ids: set<Slice32>, txids: set<Slice32>)
    requires Apart(e, ids, txids)
    ensures
      var s' := Lnpd.Step(s, e).state;
      && s'.params == s.params
      && forall id | id in ids && Channel(id) in s.accepting ::
           Channel(id) in s'.accepting && s'.accepting[Channel(id)] == s.accepting[Channel(id)]
  {
    if e.Control? {
      var place := Lnpd.Addressed(e.source, e.msg);
      if place.Some? && Lnpd.At(s, place.value).Some? {
        var s0, l := Lnpd.Greeted(s, e.source, e.msg), Lnpd.At(s, place.value).value;
        Lnpd.ControlDrives(s, e.source, e.msg, e.backend, place.value);
        Lnpd.DriveFrame(s0, place.value, l, Lnpd.EventSource(e.source, e.msg), e.msg, e.backend);
      } else {
        UndrivenStay(s, e.source, e.msg, e.backend, ids);
      }
    }
  }

  lemma UndrivenStay(s: Lnpd.State, source: ServiceId, msg: CtlMsg, backend: Launch.Backend, ids: set<Slice32>)
    requires var place := Lnpd.Addressed(source, msg); place.None? || Lnpd.At(s, place.value).None?
    requires source.Channel? ==> source.id !in ids
    ensures
      var s' := Lnpd.HandleCtl(s, source, msg, backend).state;
      && s'.params == s.params
      && forall id | id in ids && Channel(id) in s.accepting ::
           Channel(id) in s'.accepting && s'.accepting[Channel(id)] == s.accepting[Channel(id)]
  {
    if msg.Hello? {
      var s0 := Lnpd.Register(s, source);
      assert Lnpd.At(s0, Lnpd.Creating(source)).None?;
      GreetingSpares(s0, source);
    } else if Lnpd.Addressed(source, msg).Some? {
      assert Lnpd.HandleCtl(s, source, msg, backend) == Lnpd.Effect(s, [], None, None, Lnpd.Panic);
    }
  }

  lemma GreetingSpares(s: Lnpd.State, source: ServiceId)
    ensures
      var s' := Lnpd.HelloFromOthers(s, source).state;
      && s'.params == s.params
      && forall k | k in s.accepting && k != source :: k in s'.accepting && s'.accepting[k] == s.accepting[k]
  {
  }

  lemma OwnPlaceAvoided(c: Setup, g: Joint, s: Stage, e: Lnpd.Event)
    requires FunderBroker(c, g.a.lnpd, s) && WellStaged(s) && Apart(e, OwnIds(c, g), OwnTxids(c, g))
    requires LauncherAt(c, s).Some?
    ensures Avoids(e, LauncherAt(c, s).value.0)
  {
    if s.Good? && s.m >= 15 {
      assert s.psbt.txid in OwnTxids(c, g);
      assert s.Id() in OwnIds(c, g);
    }
  }

  lemma FunderApart(c: Setup, g: Joint, s: Stage, e: Lnpd.Event)
    requires FunderBroker(c, g.a.lnpd, s) && WellStaged(s)
    requires Ledger.Fresh(g.a.lnpd, e) && Apart(e, OwnIds(c, g), OwnTxids(c, g))
    ensures FunderBroker(c, Lnpd.Step(g.a.lnpd, e).state, s)
  {
    var n := g.a.lnpd;
    Ledger.StepConserves(n, e);
    OthersStay(n, e, OwnIds(c, g), OwnTxids(c, g));
    ReservationsStay(n, e, OwnIds(c, g), OwnTxids(c, g));
    var l := LauncherAt(c, s);
    if l.Some? {
      OwnPlaceAvoided(c, g, s, e);
      LauncherStays(n, e, l.value.0);
    }
    assert c.temp in OwnIds(c, g);
  }

  /** No event about other ids puts a launcher under `id`. */
  lemma StaysAbsent(s: Lnpd.State, e: Lnpd.Event, id: Slice32, ids: set<Slice32>, txids: set<Slice32>)
    requires Ledger.Inv(s) && Ledger.Fresh(s, e) && Apart(e, ids, txids) && id in ids && Channel(id) !in s.creating
    ensures Channel(id) !in Lnpd.Step(s, e).state.creating
  {
    if e.Control? {
      var place := Lnpd.Addressed(e.source, e.msg);
      if place.Some? && Lnpd.At(s, place.value).Some? {
        var l := Lnpd.At(s, place.value).value;
        Lnpd.ControlDrives(s, e.source, e.msg, e.backend, place.value);
        DriveElsewhere(Lnpd.Greeted(s, e.source, e.msg), place.value, l, Lnpd.EventSource(e.source, e.msg), e.msg, e.backend, id);
      } else {
        Lnpd.ControlSpares(s, e.source, e.msg, e.backend);
      }
    }
  }

  lemma DriveElsewhere(s: Lnpd.State, place: Lnpd.Place, l: Launch.ChannelLauncher, source: ServiceId, msg: CtlMsg,
                       backend: Launch.Backend, id: Slice32)
    requires Lnpd.At(s, place) == Some(l) && Channel(id) !in s.creating
    requires msg.ConstructFunding? && backend.funding.Funded? ==>
               ChannelIdWith(backend.funding.psbt.txid, backend.funding.psbt.vout) != id
    requires Lnpd.Fits(place, l, s.pending) && Lnpd.Addressed(source, msg) == Some(place)
    ensures Channel(id) !in Lnpd.Drive(s, place, l, source, msg, backend).state.creating
  {
  }

  lemma FundeeApart(c: Setup, g: Joint, s: Stage, e: Lnpd.Event)
    requires FundeeBroker(c, g.b.lnpd, s)
    requires Ledger.Fresh(g.b.lnpd, e) && Apart(e, OwnIds(c, g), OwnTxids(c, g))
    ensures FundeeBroker(c, Lnpd.Step(g.b.lnpd, e).state, s)
  {
    var n := g.b.lnpd;
    assert c.temp in OwnIds(c, g);
    Ledger.StepConserves(n, e);
    OthersStay(n, e, OwnIds(c, g), OwnTxids(c, g));
    StaysAbsent(n, e, c.temp, OwnIds(c, g), OwnTxids(c, g));
  }

  lemma ApartBroker(c: Setup, g: Joint, s: Stage, side: Side, e: Lnpd.Event)
    requires Shape(c, g, s) && Ledger.Fresh(At(g, side).lnpd, e) && Apart(e, OwnIds(c, g), OwnTxids(c, g))
    ensures
      var n' := Lnpd.Step(At(g, side).lnpd, e).state;
      if side == Funder then FunderBroker(c, n', s) else FundeeBroker(c, n', s)
  {
    if side == Funder {
      FunderApart(c, g, s, e);
    } else {
      FundeeApart(c, g, s, e);
    }
  }

  /** Activity on other channels does not disturb the observed one. */
  lemma ElsewhereStep(c: Setup, g: Joint, s: Stage, side: Side, e: Lnpd.Event)
    requires Shape(c, g, s) && Ledger.Fresh(At(g, side).lnpd, e) && Apart(e, OwnIds(c, g), OwnTxids(c, g))
    ensures Shape(c, Next(c, g, Elsewhere(side, e)), s)
  {
    ApartBroker(c, g, s, side, e);
    ElsewhereShape(c, g, s, side, At(g, side).(lnpd := Lnpd.Step(At(g, side).lnpd, e).state));
  }

  lemma ElsewhereShape(c: Setup, g: Joint, s: Stage, side: Side, n': Node)
    requires Shape(c, g, s) && n' == At(g, side).(lnpd := n'.lnpd)
    requires if side == Funder then FunderBroker(c, n'.lnpd, s) else FundeeBroker(c, n'.lnpd, s)
    ensures Shape(c, WithNode(g, side, n'), s)
  {
    var g' := WithNode(g, side, n');
    assert forall l :: Q(n', l) == Q(At(g, side), l);
    assert Carries(g', Inflight(c, s));
  }
}
