/** Whole joint runs: every step follows the token machine, and what that means. */
module HandshakeRuns {
  import opened Types
  import opened Node
  import opened Handshake
  import opened HandshakeSteps
  import opened HandshakeBrokers
  import Launch
  import Lnpd
  import Ledger
  import Channeld

  // ---------- Which message a delivery takes ----------

  lemma {:induction false} SomeOnLink(spots: seq<Spot>, side: Side, l: Link) returns (x: Spot)
    requires OnLink(spots, side, l) != []
    ensures x in spots && x == On(side, l, OnLink(spots, side, l)[0])
    decreases |spots|
  {
    if spots[0].On? && spots[0].side == side && spots[0].link == l {
      x := spots[0];
    } else {
      x := SomeOnLink(spots[1..], side, l);
    }
  }

  lemma {:induction false} SomeOnWire(spots: seq<Spot>, to: Side) returns (x: Spot)
    requires OnWire(spots, to) != []
    ensures x in spots && x.Wire? && x.to == to
    decreases |spots|
  {
    if spots[0].Wire? && spots[0].to == to {
      x := spots[0];
    } else {
      x := SomeOnWire(spots[1..], to);
    }
  }

  /** The daemon that takes the main strand's message. */
  predicate Due(s: Stage, side: Side, l: Link)
    requires s.Good?
  {
    || TakenBy(side, s.m) || Relayed(side, s.m) || (Leaving(side, s.m) && l == ChanPeer)
    || (side == Funder && ((s.m == 1 && l == SignLnpd) || ((s.m == 2 || s.m == 14) && l == ChanLnpd)
                           || (s.m == 35 && l == ChanRoute)))
    || (side == Fundee && ((s.m == 6 && l == PeerLnpd) || (s.m == 7 && l == ChanLnpd)
                           || ((s.m == 29 || s.m == 30) && l == ChanRoute)))
  }

  lemma EarlyDue(c: Setup, s: Stage, side: Side, l: Link, e: Envelope)
    requires s.Good? && s.m < 12 && EarlyToken(c, s) == On(side, l, e)
    ensures Due(s, side, l) && (l == ChanLnpd ==> s.m == 2 || s.m == 7) && l != ChanWatch
  {
  }

  lemma MiddleDue(c: Setup, s: Stage, side: Side, l: Link, e: Envelope)
    requires s.Good? && 12 <= s.m < 24 && MiddleToken(c, s) == On(side, l, e)
    ensures Due(s, side, l) && (l == ChanLnpd ==> s.m == 14) && l != ChanWatch
  {
  }

  lemma LateDue(c: Setup, s: Stage, side: Side, l: Link, e: Envelope)
    requires s.Good? && 24 < s.m && LateToken(c, s) == On(side, l, e)
    ensures Due(s, side, l) && l != ChanLnpd && l != ChanWatch
  {
  }

  lemma TokenDue(c: Setup, s: Stage, side: Side, l: Link, e: Envelope)
    requires WellStaged(s) && s.Good? && s.m != 24 && Token(c, s) == On(side, l, e)
    ensures Due(s, side, l) && l != ChanWatch
    ensures l == ChanLnpd ==> (s.m == 2 || s.m == 14 || s.m == 7) && !s.update && !s.hello
  {
    if s.m < 12 {
      EarlyDue(c, s, side, l, e);
    } else if s.m < 24 {
      MiddleDue(c, s, side, l, e);
    } else {
      LateDue(c, s, side, l, e);
    }
  }

  lemma FunderTokenStep(c: Setup, g: Joint, s: Stage, l: Link, e: Envelope, backend: Launch.Backend)
    requires Shape(c, g, s) && s.Good? && s.m != 24 && s.m != 14 && Token(c, s) == On(Funder, l, e)
    requires Due(s, Funder, l) && !TakenBy(Funder, s.m) && !Relayed(Funder, s.m)
    ensures Q(g.a, l) != []
    ensures Shape(c, Next(c, g, Take(Funder, l, backend)), Onward(s))
  {
    if Leaving(Funder, s.m) {
      PeerSendStep(c, g, s, Funder, backend);
    } else if s.m == 35 {
      FunderRoutedStep(c, g, s, backend);
    } else {
      FunderBrokerTokenStep(c, g, s, l, backend);
    }
  }

  lemma FunderBrokerTokenStep(c: Setup, g: Joint, s: Stage, l: Link, backend: Launch.Backend)
    requires Shape(c, g, s) && s.Good? && ((s.m == 1 && l == SignLnpd) || (s.m == 2 && l == ChanLnpd))
    ensures Q(g.a, l) != []
    ensures Shape(c, Next(c, g, Take(Funder, l, backend)), Onward(s))
  {
    if s.m == 1 {
      KeysetStep(c, g, s, backend);
    } else {
      HelloStep(c, g, s, backend);
    }
  }

  lemma FundeeTokenStep(c: Setup, g: Joint, s: Stage, l: Link, e: Envelope, backend: Launch.Backend)
    requires Shape(c, g, s) && s.Good? && s.m != 24 && Token(c, s) == On(Fundee, l, e)
    requires Due(s, Fundee, l) && !TakenBy(Fundee, s.m) && !Relayed(Fundee, s.m)
    ensures Q(g.b, l) != []
    ensures Shape(c, Next(c, g, Take(Fundee, l, backend)), Onward(s))
  {
    FundeeDue(s, l);
    if Leaving(Fundee, s.m) {
      PeerSendStep(c, g, s, Fundee, backend);
    } else {
      FundeeInnerTokenStep(c, g, s, l, backend);
    }
  }

  lemma FundeeDue(s: Stage, l: Link)
    requires s.Good? && Due(s, Fundee, l) && !TakenBy(Fundee, s.m) && !Relayed(Fundee, s.m)
    ensures if Leaving(Fundee, s.m) then l == ChanPeer
            else (s.m == 6 && l == PeerLnpd) || (s.m == 7 && l == ChanLnpd) || ((s.m == 29 || s.m == 30) && l == ChanRoute)
  {
  }

  lemma FundeeInnerTokenStep(c: Setup, g: Joint, s: Stage, l: Link, backend: Launch.Backend)
    requires Shape(c, g, s) && s.Good?
    requires (s.m == 6 && l == PeerLnpd) || (s.m == 7 && l == ChanLnpd) || ((s.m == 29 || s.m == 30) && l == ChanRoute)
    ensures Q(g.b, l) != []
    ensures Shape(c, Next(c, g, Take(Fundee, l, backend)), Onward(s))
  {
    if s.m <= 7 {
      FundeeBrokerTokenStep(c, g, s, l, backend);
    } else {
      FundeeRoutedStep(c, g, s, backend);
    }
  }

  lemma FundeeBrokerTokenStep(c: Setup, g: Joint, s: Stage, l: Link, backend: Launch.Backend)
    requires Shape(c, g, s) && s.Good? && ((s.m == 6 && l == PeerLnpd) || (s.m == 7 && l == ChanLnpd))
    ensures Q(g.b, l) != []
    ensures Shape(c, Next(c, g, Take(Fundee, l, backend)), Onward(s))
  {
    if s.m == 6 {
      OpeningStep(c, g, s, backend);
    } else {
      AcceptingStep(c, g, s, backend);
    }
  }

  lemma TokenStep(c: Setup, g: Joint, s: Stage, side: Side, l: Link, e: Envelope, backend: Launch.Backend)
    requires Shape(c, g, s) && s.Good? && s.m != 24 && s.m != 14 && Token(c, s) == On(side, l, e)
    requires Due(s, side, l)
    ensures Q(At(g, side), l) != []
    ensures Shape(c, Next(c, g, Take(side, l, backend)), Onward(s))
  {
    if TakenBy(side, s.m) {
      ChanStep(c, g, s, side, l, e, backend);
    } else if Relayed(side, s.m) {
      SigndStep(c, g, s, side, l, e, backend);
    } else if side == Funder {
      FunderTokenStep(c, g, s, l, e, backend);
    } else {
      FundeeTokenStep(c, g, s, l, e, backend);
    }
  }

  lemma TokenAdvances(c: Setup, s: Stage, side: Side, l: Link, e: Envelope, backend: Launch.Backend)
    requires WellStaged(s) && s.Good? && s.m != 24 && s.m != 14 && Token(c, s) == On(side, l, e)
    ensures Advance(s, Take(side, l, backend)) == Onward(s)
  {
    TokenDue(c, s, side, l, e);
  }

  // ---------- Simulation ----------

  lemma MainStep(c: Setup, g: Joint, s: Stage, side: Side, l: Link, e: Envelope, backend: Launch.Backend)
    requires Shape(c, g, s) && s.Good? && s.m != 24 && Token(c, s) == On(side, l, e)
    requires Enabled(c, g, Take(side, l, backend))
    ensures Q(At(g, side), l) != []
    ensures Shape(c, Next(c, g, Take(side, l, backend)), Advance(s, Take(side, l, backend)))
  {
    TokenDue(c, s, side, l, e);
    if s.m == 14 {
      FundingStep(c, g, s, backend);
    } else {
      TokenAdvances(c, s, side, l, e, backend);
      TokenStep(c, g, s, side, l, e, backend);
    }
  }

  lemma BesideDue(c: Setup, s: Stage, x: Spot)
    requires WellStaged(s) && s.Good? && x in Before(c, s)
    ensures x.On?
    ensures || (x.side == Funder && x.link == ChanLnpd && (s.m < 2 || s.hello))
            || (x.side == Fundee && x.link == ChanLnpd && s.update)
            || (x.side == Fundee && x.link == ChanRoute && s.m == 29)
  {
  }

  lemma BesideStep(c: Setup, g: Joint, s: Stage, side: Side, l: Link, x: Spot, backend: Launch.Backend)
    requires Shape(c, g, s) && s.Good? && x in Before(c, s) && x.On? && x.side == side && x.link == l
    ensures Q(At(g, side), l) != []
    ensures Shape(c, Next(c, g, Take(side, l, backend)), Advance(s, Take(side, l, backend)))
  {
    BesideDue(c, s, x);
    if side == Funder && s.m < 2 {
      EarlyHelloStep(c, g, s, backend);
    } else if side == Funder {
      GreetingLinkStep(c, g, s, backend);
    } else if l == ChanLnpd {
      UpdateStep(c, g, s, backend);
    } else {
      FundeeRoutedStep(c, g, s, backend);
    }
  }

  lemma PublicationDue(c: Setup, s: Stage, x: Spot)
    requires WellStaged(s) && s.Good? && s.m == 24 && (x in Publication(c, s) || x in Tracking(c, s))
    ensures x.On? && x.side == Funder
    ensures || (x.link == ChanLnpd && s.publish == 0) || (x.link == LnpdSign && s.publish == 1)
            || (x.link == SignLnpd && s.publish == 2) || (x.link == ChanWatch && !s.track)
  {
  }

  lemma GreetingLinkStep(c: Setup, g: Joint, s: Stage, backend: Launch.Backend)
    requires Shape(c, g, s) && s.Good? && s.hello
    ensures Q(g.a, ChanLnpd) != []
    ensures Shape(c, Next(c, g, Take(Funder, ChanLnpd, backend)), Advance(s, Take(Funder, ChanLnpd, backend)))
  {
    GreetingStep(c, g, s, backend);
    assert Advance(s, Take(Funder, ChanLnpd, backend)) == s.(hello := false);
  }

  lemma PublishLinkStep(c: Setup, g: Joint, s: Stage, backend: Launch.Backend)
    requires Shape(c, g, s) && s.Good? && s.m == 24 && s.publish == 0 && !s.hello
    ensures Q(g.a, ChanLnpd) != []
    ensures Shape(c, Next(c, g, Take(Funder, ChanLnpd, backend)), Advance(s, Take(Funder, ChanLnpd, backend)))
  {
    PublishStep(c, g, s, backend);
    assert Advance(s, Take(Funder, ChanLnpd, backend)) == s.(publish := 1);
  }

  lemma SignLinkStep(c: Setup, g: Joint, s: Stage, backend: Launch.Backend)
    requires Shape(c, g, s) && s.Good? && s.m == 24 && s.publish == 1
    ensures Q(g.a, LnpdSign) != []
    ensures Shape(c, Next(c, g, Take(Funder, LnpdSign, backend)), Advance(s, Take(Funder, LnpdSign, backend)))
  {
    FundingSignStep(c, g, s, backend);
    assert Advance(s, Take(Funder, LnpdSign, backend)) == s.(publish := 2);
  }

  lemma BroadcastLinkStep(c: Setup, g: Joint, s: Stage, backend: Launch.Backend)
    requires Shape(c, g, s) && s.Good? && s.m == 24 && s.publish == 2 && backend.broadcastOk
    ensures Q(g.a, SignLnpd) != []
    ensures Shape(c, Next(c, g, Take(Funder, SignLnpd, backend)), Advance(s, Take(Funder, SignLnpd, backend)))
  {
    BroadcastStep(c, g, s, backend);
    assert Advance(s, Take(Funder, SignLnpd, backend)) == s.(publish := 3);
  }

  lemma TrackLinkStep(c: Setup, g: Joint, s: Stage, backend: Launch.Backend)
    requires Shape(c, g, s) && s.Good? && s.m == 24 && !s.track
    ensures Q(g.a, ChanWatch) != []
    ensures Shape(c, Next(c, g, Take(Funder, ChanWatch, backend)), Advance(s, Take(Funder, ChanWatch, backend)))
  {
    TrackStep(c, g, s, backend);
    assert Advance(s, Take(Funder, ChanWatch, backend)) == s.(track := true);
  }

  lemma PublicationStep(c: Setup, g: Joint, s: Stage, l: Link, x: Spot, backend: Launch.Backend)
    requires Shape(c, g, s) && s.Good? && s.m == 24 && backend.broadcastOk
    requires (x in Publication(c, s) || x in Tracking(c, s)) && x.On? && x.link == l
    ensures Q(g.a, l) != []
    ensures Shape(c, Next(c, g, Take(Funder, l, backend)), Advance(s, Take(Funder, l, backend)))
  {
    PublicationDue(c, s, x);
    if l == ChanWatch {
      TrackLinkStep(c, g, s, backend);
    } else if l == ChanLnpd && s.hello {
      GreetingLinkStep(c, g, s, backend);
    } else if l == ChanLnpd {
      PublishLinkStep(c, g, s, backend);
    } else if l == LnpdSign {
      SignLinkStep(c, g, s, backend);
    } else {
      BroadcastLinkStep(c, g, s, backend);
    }
  }

  lemma AstrayStep(c: Setup, g: Joint, k: nat, side: Side, l: Link, x: Spot, backend: Launch.Backend)
    requires Shape(c, g, Bad(k)) && x in Astray(c, k) && x.On? && x.side == side && x.link == l
    ensures Q(At(g, side), l) != []
    ensures Shape(c, Next(c, g, Take(side, l, backend)), Bad(k + 1))
  {
    if k == 0 || k == 2 {
      AstraySigndStep(c, g, k, backend);
    } else {
      AstrayBrokerStep(c, g, k, backend);
    }
  }

  lemma AstrayBrokerStep(c: Setup, g: Joint, k: nat, backend: Launch.Backend)
    requires Shape(c, g, Bad(k)) && (k == 1 || k == 3)
    ensures Q(g.a, SignLnpd) != []
    ensures Shape(c, Next(c, g, Take(Funder, SignLnpd, backend)), Bad(k + 1))
  {
    if k == 1 {
      LateKeysetStep(c, g, backend);
    } else {
      PanicStep(c, g, backend);
    }
  }

  lemma GoodStep(c: Setup, g: Joint, s: Stage, side: Side, l: Link, x: Spot, backend: Launch.Backend)
    requires Shape(c, g, s) && s.Good? && Enabled(c, g, Take(side, l, backend))
    requires x in Inflight(c, s) && x.On? && x.side == side && x.link == l
    ensures Shape(c, Next(c, g, Take(side, l, backend)), Advance(s, Take(side, l, backend)))
  {
    if x in Before(c, s) {
      BesideStep(c, g, s, side, l, x, backend);
    } else if s.m == 24 {
      PublicationDue(c, s, x);
      PublicationStep(c, g, s, l, x, backend);
    } else {
      MainStep(c, g, s, side, l, x.e, backend);
    }
  }

  lemma HeadSpot(c: Setup, g: Joint, s: Stage, side: Side, l: Link) returns (x: Spot)
    requires Carries(g, Inflight(c, s)) && Q(At(g, side), l) != []
    ensures x in Inflight(c, s) && x == On(side, l, Q(At(g, side), l)[0])
  {
    assert Q(At(g, side), l) == OnLink(Inflight(c, s), side, l);
    x := SomeOnLink(Inflight(c, s), side, l);
  }

  lemma TakeStep(c: Setup, g: Joint, s: Stage, side: Side, l: Link, backend: Launch.Backend)
    requires Shape(c, g, s) && Enabled(c, g, Take(side, l, backend))
    ensures Shape(c, Next(c, g, Take(side, l, backend)), Advance(s, Take(side, l, backend)))
  {
    var x := HeadSpot(c, g, s, side, l);
    if s.Bad? {
      AstrayStep(c, g, s.k, side, l, x, backend);
    } else {
      GoodStep(c, g, s, side, l, x, backend);
    }
  }

  lemma WireDue(c: Setup, s: Stage, x: Spot)
    requires WellStaged(s) && x in Inflight(c, s) && x.Wire?
    ensures s.Good? && s.m != 24 && Crossing(x.to, s.m) && Advance(s, Cross(x.to)) == Onward(s)
  {
    if s.Good? {
      assert x in Before(c, s) ==> x.On?;
    }
  }

  /** Every enabled action takes the joint state to the next stage of the token machine. */
  lemma Simulates(c: Setup, g: Joint, s: Stage, act: Action)
    requires Shape(c, g, s) && Enabled(c, g, act)
    ensures Shape(c, Next(c, g, act), Advance(s, act))
  {
    match act
    case Take(side, l, backend) =>
      TakeStep(c, g, s, side, l, backend);
    case Cross(to) =>
      assert WireTo(g, to) == OnWire(Inflight(c, s), to);
      var x := SomeOnWire(Inflight(c, s), to);
      WireDue(c, s, x);
      CrossStep(c, g, s, to);
    case Find(txid) =>
      FindStep(c, g, s, txid);
    case Elsewhere(side, e) =>
      ElsewhereStep(c, g, s, side, e);
  }

  // ---------- Counting ----------

  /** Every delivery of the observed channel counts once. */
  lemma GoodCounts(c: Setup, s: Stage, x: Spot, backend: Launch.Backend)
    requires WellStaged(s) && s.Good? && x in Inflight(c, s) && x.On?
    requires s.m == 14 ==> backend.funding.Funded? && backend.funding.psbt.vout == FIRST_OUTPUT
    ensures
      var s' := Advance(s, Take(x.side, x.link, backend));
      WellStaged(s') && Count(s') == Count(s) + 1
  {
    if x in Before(c, s) {
      BesideDue(c, s, x);
    } else if s.m == 24 {
      PublicationDue(c, s, x);
    } else {
      TokenDue(c, s, x.side, x.link, x.e);
      MainCounts(c, s, x.side, x.link, x.e, backend);
    }
  }

  lemma MainCounts(c: Setup, s: Stage, side: Side, l: Link, e: Envelope, backend: Launch.Backend)
    requires WellStaged(s) && s.Good? && s.m != 24 && Token(c, s) == On(side, l, e)
    requires s.m == 14 ==> backend.funding.Funded? && backend.funding.psbt.vout == FIRST_OUTPUT
    ensures
      var s' := Advance(s, Take(side, l, backend));
      WellStaged(s') && Count(s') == Count(s) + 1
  {
    TokenDue(c, s, side, l, e);
    if s.m != 14 {
      TokenAdvances(c, s, side, l, e, backend);
    }
  }

  lemma FundingAnswered(c: Setup, g: Joint, s: Stage, side: Side, l: Link, backend: Launch.Backend)
    requires Shape(c, g, s) && s.Good? && s.m == 14 && Enabled(c, g, Take(side, l, backend))
    ensures backend.funding.Funded? && backend.funding.psbt.vout == FIRST_OUTPUT
  {
    assert Inflight(c, s) == [Token(c, s)];
    var x := SomeOnLink(Inflight(c, s), side, l);
    FundingStep(c, g, s, backend);
  }

  lemma TakeCounts(c: Setup, g: Joint, s: Stage, side: Side, l: Link, backend: Launch.Backend)
    requires Shape(c, g, s) && Enabled(c, g, Take(side, l, backend))
    ensures
      var s' := Advance(s, Take(side, l, backend));
      WellStaged(s') && Count(s') == Count(s) + 1
  {
    assert Q(At(g, side), l) == OnLink(Inflight(c, s), side, l);
    var x := SomeOnLink(Inflight(c, s), side, l);
    if s.Good? {
      if s.m == 14 {
        FundingAnswered(c, g, s, side, l, backend);
      }
      GoodCounts(c, s, x, backend);
    }
  }

  lemma StepCounts(c: Setup, g: Joint, s: Stage, act: Action)
    requires Shape(c, g, s) && Enabled(c, g, act)
    ensures WellStaged(Advance(s, act))
    ensures Count(Advance(s, act)) == Count(s) + (if act.Elsewhere? then 0 else 1)
  {
    match act
    case Take(side, l, backend) =>
      TakeCounts(c, g, s, side, l, backend);
    case Cross(to) =>
      assert WireTo(g, to) == OnWire(Inflight(c, s), to);
      var x := SomeOnWire(Inflight(c, s), to);
      WireDue(c, s, x);
    case Find(txid) =>
    case Elsewhere(_, _) =>
  }

  // ---------- Runs ----------

  /** Both nodes before the client's request: nothing in flight, no daemon for the channel, and
      a temporary id unknown to either broker. */
  ghost predicate Idle(c: Setup, g: Joint) {
    && Constants(c, g) && Carries(g, []) && g.a.chan.None? && g.b.chan.None?
    && g.a.tracked == map[] && g.chain == {} && g.fault.None?
    && Ledger.Inv(g.a.lnpd) && g.a.lnpd.params == c.aParams
    && Ledger.Fresh(g.a.lnpd, Lnpd.Request(c.temp, c.request, c.client))
    && (forall x | x in g.a.lnpd.pending :: g.a.lnpd.pending[x].temp != c.temp)
    && Ledger.Inv(g.b.lnpd) && g.b.lnpd.params == c.bParams && Channel(c.temp) !in g.b.lnpd.creating
  }

  /** The funder's lnpd takes the request. */
  function Begin(c: Setup, g: Joint): Joint {
    g.(a := Settle(g.a, Lnpd.Create(g.a.lnpd, c.temp, c.request, c.client)).node)
  }

  function StartStage(c: Setup): Stage { Good(0, false, false, 0, false, c.v.refund) }

  ghost predicate Valid(c: Setup, g: Joint, acts: seq<Action>)
    decreases |acts|
  {
    acts == [] || (Enabled(c, g, acts[0]) && Valid(c, Next(c, g, acts[0]), acts[1..]))
  }

  ghost function After(c: Setup, g: Joint, acts: seq<Action>): Joint
    requires Valid(c, g, acts)
    decreases |acts|
  {
    if acts == [] then g else After(c, Next(c, g, acts[0]), acts[1..])
  }

  function Fold(s: Stage, acts: seq<Action>): Stage
    decreases |acts|
  {
    if acts == [] then s else Fold(Advance(s, acts[0]), acts[1..])
  }

  /** Actions of the observed channel in a run. */
  function Own(acts: seq<Action>): nat
    decreases |acts|
  {
    if acts == [] then 0 else (if acts[0].Elsewhere? then 0 else 1) + Own(acts[1..])
  }

  lemma {:induction false} RunFollows(c: Setup, g: Joint, s: Stage, acts: seq<Action>)
    requires Shape(c, g, s) && Valid(c, g, acts)
    ensures Shape(c, After(c, g, acts), Fold(s, acts))
    ensures Count(Fold(s, acts)) == Count(s) + Own(acts)
    decreases |acts|
  {
    if acts != [] {
      Simulates(c, g, s, acts[0]);
      StepCounts(c, g, s, acts[0]);
      RunFollows(c, Next(c, g, acts[0]), Advance(s, acts[0]), acts[1..]);
    }
  }

  lemma StartSettles(n: Node, temp: Slice32, request: CreateChannel, client: ClientId)
    requires n.chan.None?
    ensures
      var derive := Envelope(LnpBroker, Signer, Ctl(DeriveKeyset(temp)));
      var hello := Envelope(Channel(temp), LnpBroker, Ctl(Hello));
      var s' := Lnpd.Create(n.lnpd, temp, request, client).state;
      Settle(n, Lnpd.Create(n.lnpd, temp, request, client)).node ==
        Push(Push(n.(lnpd := s'), LnpdSign, derive).(chan := Some(Channeld.Spawn(temp))), ChanLnpd, hello)
  {
    var derive := Envelope(LnpBroker, Signer, Ctl(DeriveKeyset(temp)));
    var s' := Lnpd.Create(n.lnpd, temp, request, client).state;
    PostOne(n.(lnpd := s'), Broker, derive);
  }

  lemma StartCarries(c: Setup, g: Joint, n1: Node)
    requires Carries(g, []) && n1.net == g.a.net
    ensures
      var derive := Envelope(LnpBroker, Signer, Ctl(DeriveKeyset(c.temp)));
      var hello := Envelope(Channel(c.temp), LnpBroker, Ctl(Hello));
      var n2 := Push(n1, LnpdSign, derive).(chan := Some(Channeld.Spawn(c.temp)));
      Carries(g.(a := Push(n2, ChanLnpd, hello)), [On(Funder, ChanLnpd, hello), On(Funder, LnpdSign, derive)])
  {
    var derive := Envelope(LnpBroker, Signer, Ctl(DeriveKeyset(c.temp)));
    var hello := Envelope(Channel(c.temp), LnpBroker, Ctl(Hello));
    var x, y := On(Funder, ChanLnpd, hello), On(Funder, LnpdSign, derive);
    forall side, l
      ensures OnLink([x, y], side, l) ==
              if side == Funder && l == ChanLnpd then [hello] else if side == Funder && l == LnpdSign then [derive] else []
    {
      assert [x, y][1..] == [y];
      SingleSpot(y, side, l);
    }
    var n' := Push(Push(n1, LnpdSign, derive).(chan := Some(Channeld.Spawn(c.temp))), ChanLnpd, hello);
    forall l
      ensures Q(n', l) == OnLink([x, y], Funder, l) && Q(g.b, l) == OnLink([x, y], Fundee, l)
    {
      assert Q(n1, l) == Q(g.a, l) && Q(g.a, l) == OnLink([], Funder, l) && Q(g.b, l) == OnLink([], Fundee, l);
      assert [] + [hello] == [hello] && [] + [derive] == [derive];
    }
    NoneOnLink([x, y], Funder, PeerLnpd);
    CarriesNow(g, Funder, n', [x, y]);
  }

  /** The request puts the joint state at the first stage. */
  lemma BeginsAtStart(c: Setup, g: Joint)
    requires Idle(c, g)
    ensures Shape(c, Begin(c, g), StartStage(c))
  {
    var n := g.a.lnpd;
    var s' := Lnpd.Create(n, c.temp, c.request, c.client).state;
    StartSettles(g.a, c.temp, c.request, c.client);
    StartCarries(c, g, g.a.(lnpd := s'));
    assert Inflight(c, StartStage(c)) == Before(c, StartStage(c)) + [Token(c, StartStage(c))];
    Ledger.CreateConserves(n, c.temp, c.request, c.client);
    assert Lnpd.At(s', Lnpd.Creating(Channel(c.temp))) == Some(Launch.Init(c.temp, c.request, c.client));
  }
}
