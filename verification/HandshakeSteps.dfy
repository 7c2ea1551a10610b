/** The steps of a joint run: each delivery takes the joint state from one stage to the next. */
module HandshakeSteps {
  import opened Types
  import opened Node
  import opened Handshake
  import Reservations
  import Launch
  import Lnpd
  import Ledger
  import Channeld
  import Peerd
  import FundingSafety
  import LnpdSteps

  // ---------- How queues follow the stages ----------

  lemma {:induction false} OnLinkConcat(xs: seq<Spot>, ys: seq<Spot>, side: Side, l: Link)
    ensures OnLink(xs + ys, side, l) == OnLink(xs, side, l) + OnLink(ys, side, l)
    decreases |xs|
  {
    if xs == [] {
      assert xs + ys == ys;
    } else {
      assert (xs + ys)[1..] == xs[1..] + ys;
      OnLinkConcat(xs[1..], ys, side, l);
    }
  }

  lemma {:induction false} OnWireConcat(xs: seq<Spot>, ys: seq<Spot>, to: Side)
    ensures OnWire(xs + ys, to) == OnWire(xs, to) + OnWire(ys, to)
    decreases |xs|
  {
    if xs == [] {
      assert xs + ys == ys;
    } else {
      assert (xs + ys)[1..] == xs[1..] + ys;
      OnWireConcat(xs[1..], ys, to);
    }
  }

  /** The messages a daemon of `side` sends, as spots. */
  function SpotFor(side: Side, from: Who, e: Envelope): seq<Spot> {
    var line := Line(from, e.dest);
    if line.Some? then [On(side, line.value, e)] else []
  }

  function Spots(side: Side, from: Who, es: seq<Envelope>): seq<Spot>
    decreases |es|
  {
    if es == [] then [] else SpotFor(side, from, es[0]) + Spots(side, from, es[1..])
  }

  lemma SpotForAt(side: Side, from: Who, e: Envelope, side': Side, l: Link)
    ensures OnLink(SpotFor(side, from, e), side', l) ==
            if side' == side && Line(from, e.dest) == Some(l) then [e] else []
    ensures OnWire(SpotFor(side, from, e), side') == []
  {
    var spots := SpotFor(side, from, e);
    assert spots != [] ==> spots[1..] == [];
  }

  lemma PostQueue(n: Node, side: Side, from: Who, e: Envelope, l: Link)
    ensures Q(Post(n, from, e), l) == Q(n, l) + OnLink(SpotFor(side, from, e), side, l)
  {
    SpotForAt(side, from, e, side, l);
  }

  /** Sending adds exactly those messages. */
  lemma {:induction false} PostAllQueues(n: Node, side: Side, from: Who, es: seq<Envelope>, l: Link)
    ensures Q(PostAll(n, from, es), l) == Q(n, l) + OnLink(Spots(side, from, es), side, l)
    decreases |es|
  {
    if es != [] {
      var first, rest := SpotFor(side, from, es[0]), Spots(side, from, es[1..]);
      var n1 := Post(n, from, es[0]);
      PostAllQueues(n1, side, from, es[1..], l);
      PostQueue(n, side, from, es[0], l);
      OnLinkConcat(first, rest, side, l);
      Reassociate(Q(n, l), OnLink(first, side, l), OnLink(rest, side, l));
    }
  }

  lemma Reassociate(xs: seq<Envelope>, ys: seq<Envelope>, zs: seq<Envelope>)
    ensures xs + ys + zs == xs + (ys + zs)
  {
  }

  lemma {:induction false} SpotsElsewhere(side: Side, from: Who, es: seq<Envelope>, l: Link, to: Side)
    ensures OnLink(Spots(side, from, es), Opposite(side), l) == [] && OnWire(Spots(side, from, es), to) == []
    decreases |es|
  {
    if es != [] {
      SpotForAt(side, from, es[0], Opposite(side), l);
      SpotForAt(side, from, es[0], to, l);
      SpotsElsewhere(side, from, es[1..], l, to);
      OnLinkConcat(SpotFor(side, from, es[0]), Spots(side, from, es[1..]), Opposite(side), l);
      OnWireConcat(SpotFor(side, from, es[0]), Spots(side, from, es[1..]), to);
    }
  }

  function Opposite(side: Side): Side { if side == Funder then Fundee else Funder }

  function WithNode(g: Joint, side: Side, n: Node): Joint {
    if side == Funder then g.(a := n) else g.(b := n)
  }

  /** A daemon of `side` takes the first message of link `l` and sends `es`. */
  lemma TradeOnLink(g: Joint, xs: seq<Spot>, ys: seq<Spot>, side: Side, l: Link, e: Envelope,
                    from: Who, es: seq<Envelope>, n1: Node)
    requires Carries(g, xs + [On(side, l, e)] + ys) && OnLink(xs, side, l) == []
    requires Q(At(g, side), l) != [] && n1.net == Pop(At(g, side), l).net
    ensures Carries(WithNode(g, side, PostAll(n1, from, es)), xs + ys + Spots(side, from, es))
  {
    var all := xs + ys + Spots(side, from, es);
    var n' := PostAll(n1, from, es);
    forall k
      ensures Q(n', k) == OnLink(all, side, k)
      ensures Q(At(g, Opposite(side)), k) == OnLink(all, Opposite(side), k)
    {
      TradeHere(g, xs, ys, side, l, e, from, es, n1, k);
      TradeThere(g, xs, ys, side, l, e, from, es, k);
    }
    TradeOffWire(xs, ys, side, l, e, from, es, Funder);
    TradeOffWire(xs, ys, side, l, e, from, es, Fundee);
    CarriesNow(g, side, n', all);
  }

  lemma CarriesNow(g: Joint, side: Side, n': Node, all: seq<Spot>)
    requires forall k :: Q(n', k) == OnLink(all, side, k)
    requires forall k :: Q(At(g, Opposite(side)), k) == OnLink(all, Opposite(side), k)
    requires g.ab == OnWire(all, Fundee) && g.ba == OnWire(all, Funder)
    ensures Carries(WithNode(g, side, n'), all)
  {
    var g' := WithNode(g, side, n');
    assert At(g', side) == n' && At(g', Opposite(side)) == At(g, Opposite(side));
    forall l
      ensures Q(g'.a, l) == OnLink(all, Funder, l) && Q(g'.b, l) == OnLink(all, Fundee, l)
    {
      assert Q(At(g', side), l) == OnLink(all, side, l);
      assert Q(At(g', Opposite(side)), l) == OnLink(all, Opposite(side), l);
    }
  }

  lemma TradeHere(g: Joint, xs: seq<Spot>, ys: seq<Spot>, side: Side, l: Link, e: Envelope,
                  from: Who, es: seq<Envelope>, n1: Node, k: Link)
    requires Q(At(g, side), k) == OnLink(xs + [On(side, l, e)] + ys, side, k) && OnLink(xs, side, l) == []
    requires Q(At(g, side), l) != [] && n1.net == Pop(At(g, side), l).net
    ensures Q(PostAll(n1, from, es), k) == OnLink(xs + ys + Spots(side, from, es), side, k)
  {
    PostAllQueues(n1, side, from, es, k);
    OnLinkConcat(xs + ys, Spots(side, from, es), side, k);
    DropOnLink(xs, ys, side, l, e, side, k);
    PoppedQueue(g, side, l, n1, k);
  }

  lemma TradeThere(g: Joint, xs: seq<Spot>, ys: seq<Spot>, side: Side, l: Link, e: Envelope,
                   from: Who, es: seq<Envelope>, k: Link)
    requires Q(At(g, Opposite(side)), k) == OnLink(xs + [On(side, l, e)] + ys, Opposite(side), k) && OnLink(xs, side, l) == []
    ensures Q(At(g, Opposite(side)), k) == OnLink(xs + ys + Spots(side, from, es), Opposite(side), k)
  {
    OnLinkConcat(xs + ys, Spots(side, from, es), Opposite(side), k);
    SpotsElsewhere(side, from, es, k, side);
    DropOnLink(xs, ys, side, l, e, Opposite(side), k);
  }

  lemma TradeOffWire(xs: seq<Spot>, ys: seq<Spot>, side: Side, l: Link, e: Envelope, from: Who, es: seq<Envelope>, to: Side)
    ensures OnWire(xs + ys + Spots(side, from, es), to) == OnWire(xs + [On(side, l, e)] + ys, to)
  {
    SpotsElsewhere(side, from, es, l, to);
    OnWireConcat(xs + ys, Spots(side, from, es), to);
    DropOnWire(xs, ys, On(side, l, e), to);
  }

  lemma PoppedQueue(g: Joint, side: Side, l: Link, n1: Node, k: Link)
    requires Q(At(g, side), l) != [] && n1.net == Pop(At(g, side), l).net
    ensures Q(n1, k) == if k == l then Q(At(g, side), k)[1..] else Q(At(g, side), k)
  {
  }

  lemma Head(g: Joint, xs: seq<Spot>, ys: seq<Spot>, side: Side, l: Link, e: Envelope)
    requires Carries(g, xs + [On(side, l, e)] + ys) && OnLink(xs, side, l) == []
    ensures Q(At(g, side), l) != [] && Q(At(g, side), l)[0] == e
  {
    HeadOnLink(xs, ys, side, l, e);
  }

  lemma HeadOnLink(xs: seq<Spot>, ys: seq<Spot>, side: Side, l: Link, e: Envelope)
    requires OnLink(xs, side, l) == []
    ensures OnLink(xs + [On(side, l, e)] + ys, side, l) == [e] + OnLink(xs + ys, side, l)
  {
    var spot := On(side, l, e);
    OnLinkConcat(xs + [spot], ys, side, l);
    OnLinkConcat(xs, [spot], side, l);
    OnLinkConcat(xs, ys, side, l);
    assert [spot][1..] == [];
  }

  /** Links other than the one a message is on do not notice its removal. */
  lemma DropOnLink(xs: seq<Spot>, ys: seq<Spot>, side: Side, l: Link, e: Envelope, side': Side, k: Link)
    requires OnLink(xs, side, l) == []
    ensures OnLink(xs + [On(side, l, e)] + ys, side', k) ==
            (if side' == side && k == l then [e] else []) + OnLink(xs + ys, side', k)
  {
    if side' == side && k == l {
      HeadOnLink(xs, ys, side, l, e);
    } else {
      OnLinkConcat(xs + [On(side, l, e)], ys, side', k);
      OnLinkConcat(xs, [On(side, l, e)], side', k);
      OnLinkConcat(xs, ys, side', k);
      assert [On(side, l, e)][1..] == [];
    }
  }

  lemma DropOnWire(xs: seq<Spot>, ys: seq<Spot>, spot: Spot, to: Side)
    requires !spot.Wire?
    ensures OnWire(xs + [spot] + ys, to) == OnWire(xs + ys, to)
  {
    OnWireConcat(xs + [spot], ys, to);
    OnWireConcat(xs, [spot], to);
    OnWireConcat(xs, ys, to);
    assert [spot][1..] == [];
  }

  // ---------- Channel daemons take messages ----------

  /** Stages whose message the funder's (fundee's) channel daemon takes. */
  predicate TakenBy(side: Side, m: nat) {
    if side == Funder then m == 3 || m == 13 || m == 15 || m == 17 || m == 23 || m == 25 || m == 34
    else m == 8 || m == 10 || m == 20 || m == 28 || m == 31
  }

  /** What the channel daemon sends on reaching the stage. */
  function Emits(c: Setup, s: Stage): seq<Envelope>
    requires s.Good?
  {
    var cp := Channel(s.Id());
    var t := Token(c, s);
    match s.m
    case 18 => [Envelope(cp, LnpBroker, Ctl(Hello)), Envelope(cp, PeerBolt(c.request.remotePeer), Bolt(Creation(c, s)))]
    case 21 => [Envelope(cp, LnpBroker, Ctl(ChannelUpdate(c.temp, s.Id()))),
                Envelope(cp, PeerBolt(c.bRemote), Bolt(FundingSigned(s.Id(), Signature(c))))]
    case 24 => [Envelope(cp, LnpBroker, Ctl(PublishFunding)), Envelope(cp, Watch, Ctl(Track(s.psbt.txid, 0)))]
    case 29 => [Envelope(cp, Router, Ctl(ChannelCreated(s.Id()))), Envelope(cp, Router, Ctl(Hello))]
    case _ => if t.On? then [t.e] else []
  }

  function Onward(s: Stage): Stage
    requires s.Good?
  {
    s.(m := s.m + 1, hello := s.hello || s.m == 17, update := s.update || s.m == 20)
  }

  /** The daemon expects the message, and sends what the next stage shows. */
  predicate Computes(c: Setup, s: Stage, side: Side, d: Channeld.Daemon)
    requires s.Good?
  {
    var t := Token(c, s);
    t.On? && t.side == side && t.e.dest == d.identity &&
    var r := Channeld.Handle(d, t.e.source, t.e.msg, c.v);
    && r.status == Channeld.Updated && r.sends == Emits(c, Onward(s))
    && Some(FaceOf(r.d)) == ExpectedFace(c, Onward(s), side)
  }

  lemma FunderProposes(c: Setup, s: Stage, d: Channeld.Daemon)
    requires Cooperative(c.v) && s.Good? && (s.m == 3 || s.m == 13)
    requires FaceOf(d) == FunderFace(c, s)
    ensures Computes(c, s, Funder, d)
  {
  }

  lemma FunderCommits(c: Setup, s: Stage, d: Channeld.Daemon)
    requires Cooperative(c.v) && s.Good? && (s.m == 15 || s.m == 17)
    requires FaceOf(d) == FunderFace(c, s)
    ensures Computes(c, s, Funder, d)
  {
  }

  lemma FunderPublishes(c: Setup, s: Stage, d: Channeld.Daemon)
    requires Cooperative(c.v) && s.Good? && s.m == 23
    requires FaceOf(d) == FunderFace(c, s)
    ensures Computes(c, s, Funder, d)
  {
  }

  lemma FunderLocks(c: Setup, s: Stage, d: Channeld.Daemon)
    requires Cooperative(c.v) && s.Good? && (s.m == 25 || s.m == 34)
    requires FaceOf(d) == FunderFace(c, s)
    ensures Computes(c, s, Funder, d)
  {
  }

  lemma FundeeAccepts(c: Setup, s: Stage, d: Channeld.Daemon)
    requires Cooperative(c.v) && s.Good? && (s.m == 8 || s.m == 10)
    requires Some(FaceOf(d)) == FundeeFace(c, s)
    ensures Computes(c, s, Fundee, d)
  {
  }

  lemma FundeeSigns(c: Setup, s: Stage, d: Channeld.Daemon)
    requires Cooperative(c.v) && s.Good? && (s.m == 20)
    requires Some(FaceOf(d)) == FundeeFace(c, s)
    ensures Computes(c, s, Fundee, d)
  {
  }

  lemma FundeeActivates(c: Setup, s: Stage, d: Channeld.Daemon)
    requires Cooperative(c.v) && s.Good? && (s.m == 28 || s.m == 31)
    requires Some(FaceOf(d)) == FundeeFace(c, s)
    ensures Computes(c, s, Fundee, d)
  {
  }

  lemma ChanComputes(c: Setup, s: Stage, side: Side, d: Channeld.Daemon)
    requires Cooperative(c.v) && s.Good? && TakenBy(side, s.m)
    requires Some(FaceOf(d)) == ExpectedFace(c, s, side)
    ensures Computes(c, s, side, d)
  {
    if side == Funder {
      if s.m <= 13 {
        FunderProposes(c, s, d);
      } else if s.m <= 17 {
        FunderCommits(c, s, d);
      } else if s.m == 23 {
        FunderPublishes(c, s, d);
      } else {
        FunderLocks(c, s, d);
      }
    } else if s.m <= 10 {
      FundeeAccepts(c, s, d);
    } else if s.m == 20 {
      FundeeSigns(c, s, d);
    } else {
      FundeeActivates(c, s, d);
    }
  }

  /** The messages of the next stage are those left over and those sent. */
  lemma SpotsOfFew(side: Side, from: Who, es: seq<Envelope>)
    requires |es| <= 2
    ensures Spots(side, from, es) ==
            (if |es| >= 1 then SpotFor(side, from, es[0]) else []) + (if |es| == 2 then SpotFor(side, from, es[1]) else [])
  {
    if |es| == 2 {
      assert es[1..] == [es[1]];
      assert Spots(side, from, es[1..]) == SpotFor(side, from, es[1]);
    }
  }

  lemma ProposalInflight(c: Setup, s: Stage)
    requires WellStaged(s) && s.Good? && (s.m == 3 || s.m == 13 || s.m == 15)
    ensures Inflight(c, Onward(s)) == Before(c, s) + Spots(Funder, Chan, Emits(c, Onward(s)))
  {
    SpotsOfFew(Funder, Chan, Emits(c, Onward(s)));
  }

  lemma CommitmentInflight(c: Setup, s: Stage)
    requires WellStaged(s) && s.Good? && (s.m == 17 || s.m == 23)
    ensures Inflight(c, Onward(s)) == Before(c, s) + Spots(Funder, Chan, Emits(c, Onward(s)))
  {
    SpotsOfFew(Funder, Chan, Emits(c, Onward(s)));
  }

  lemma ActivationInflight(c: Setup, s: Stage)
    requires WellStaged(s) && s.Good? && (s.m == 25 || s.m == 34)
    ensures Inflight(c, Onward(s)) == Before(c, s) + Spots(Funder, Chan, Emits(c, Onward(s)))
  {
    SpotsOfFew(Funder, Chan, Emits(c, Onward(s)));
  }

  lemma AcceptanceInflight(c: Setup, s: Stage)
    requires WellStaged(s) && s.Good? && (s.m == 8 || s.m == 10)
    ensures Inflight(c, Onward(s)) == Before(c, s) + Spots(Fundee, Chan, Emits(c, Onward(s)))
  {
    SpotsOfFew(Fundee, Chan, Emits(c, Onward(s)));
  }

  lemma CounterSignInflight(c: Setup, s: Stage)
    requires WellStaged(s) && s.Good? && s.m == 20
    ensures Inflight(c, Onward(s)) == Before(c, s) + Spots(Fundee, Chan, Emits(c, Onward(s)))
  {
    SpotsOfFew(Fundee, Chan, Emits(c, Onward(s)));
  }

  lemma LockingInflight(c: Setup, s: Stage)
    requires WellStaged(s) && s.Good? && (s.m == 28 || s.m == 31)
    ensures Inflight(c, Onward(s)) == Before(c, s) + Spots(Fundee, Chan, Emits(c, Onward(s)))
  {
    SpotsOfFew(Fundee, Chan, Emits(c, Onward(s)));
  }

  lemma {:induction false} NoneOnLink(spots: seq<Spot>, side: Side, l: Link)
    requires forall x | x in spots :: x.On? && !(x.side == side && x.link == l)
    ensures OnLink(spots, side, l) == [] && OnWire(spots, Funder) == [] && OnWire(spots, Fundee) == []
    decreases |spots|
  {
    if spots != [] {
      NoneOnLink(spots[1..], side, l);
    }
  }

  /** Side strands wait on the links to lnpd and to the router only. */
  lemma BeforeElsewhere(c: Setup, s: Stage, side: Side, l: Link)
    requires s.Good? && l != ChanLnpd && (l == ChanRoute ==> s.m != 29)
    ensures OnLink(Before(c, s), side, l) == []
    ensures OnWire(Before(c, s), Funder) == [] && OnWire(Before(c, s), Fundee) == []
  {
    NoneOnLink(Before(c, s), side, l);
  }

  lemma ChanInflight(c: Setup, s: Stage, side: Side)
    requires WellStaged(s) && s.Good? && TakenBy(side, s.m)
    ensures Inflight(c, Onward(s)) == Before(c, s) + Spots(side, Chan, Emits(c, Onward(s)))
  {
    if side == Fundee && s.m <= 10 {
      AcceptanceInflight(c, s);
    } else if side == Fundee && s.m == 20 {
      CounterSignInflight(c, s);
    } else if side == Fundee {
      LockingInflight(c, s);
    } else if s.m <= 15 {
      ProposalInflight(c, s);
    } else if s.m <= 23 {
      CommitmentInflight(c, s);
    } else {
      ActivationInflight(c, s);
    }
  }

  /** A delivery to a channel daemon that expects it. */
  lemma ChanDelivers(n: Node, l: Link, v: Channeld.Verdict, backend: Launch.Backend, r: Channeld.Reaction)
    requires l == LnpdChan || l == SignChan || l == WatchChan || l == RouteChan || l == PeerChan
    requires Q(n, l) != [] && n.chan.Some? && n.chan.value.identity == Q(n, l)[0].dest
    requires r == Channeld.Handle(n.chan.value, Q(n, l)[0].source, Q(n, l)[0].msg, v) && r.status == Channeld.Updated
    ensures
      var entry := Consumed(n.chan.value.state.machine, Q(n, l)[0].msg, v.core, r.sends);
      var n1 := Pop(n, l).(chan := Some(r.d), history := n.history + [entry]);
      Deliver(n, l, v, backend) == Fine(PostAll(n1, Chan, r.sends))
  {
  }

  /** What a step of a channel daemon leaves alone. */
  lemma BrokersStay(c: Setup, g: Joint, g': Joint, s: Stage, s': Stage)
    requires FunderBroker(c, g.a.lnpd, s) && FundeeBroker(c, g.b.lnpd, s)
    requires g'.a.lnpd == g.a.lnpd && g'.b.lnpd == g.b.lnpd
    requires LauncherAt(c, s') == LauncherAt(c, s) && ReservedFor(c, s') == ReservedFor(c, s)
    requires s'.Good? && s'.m == 7 ==> s == s'
    ensures FunderBroker(c, g'.a.lnpd, s') && FundeeBroker(c, g'.b.lnpd, s')
  {
  }

  /** The parts of a node that only its broker, watcher and constants make up. */
  predicate SameBackground(n: Node, n': Node) {
    n'.lnpd == n.lnpd && n'.tracked == n.tracked && n'.remote == n.remote && n'.keys == n.keys
  }

  lemma ChanShape(c: Setup, g: Joint, s: Stage, side: Side, n': Node)
    requires Shape(c, g, s) && s.Good? && TakenBy(side, s.m)
    requires SameBackground(At(g, side), n') && DaemonFits(c, n', Onward(s), side)
    requires Carries(WithNode(g, side, n'), Inflight(c, Onward(s)))
    ensures Shape(c, WithNode(g, side, n'), Onward(s))
  {
    var g' := WithNode(g, side, n');
    BrokersStay(c, g, g', s, Onward(s));
    OtherDaemonStays(c, s, side);
  }

  lemma OtherDaemonStays(c: Setup, s: Stage, side: Side)
    requires s.Good? && TakenBy(side, s.m)
    ensures ExpectedFace(c, Onward(s), Opposite(side)) == ExpectedFace(c, s, Opposite(side))
  {
  }

  /** The state after a delivery in which nothing but the node of `side` changes. */
  lemma QuietNext(c: Setup, g: Joint, side: Side, l: Link, backend: Launch.Backend, n': Node)
    requires Q(At(g, side), l) != [] && Deliver(At(g, side), l, c.v, backend) == Fine(n') && g.fault.None?
    ensures Next(c, g, Take(side, l, backend)) == WithNode(g, side, n')
  {
    assert g.ab + [] == g.ab && g.ba + [] == g.ba && g.chain + {} == g.chain;
  }

  /** The channel daemon of `side` takes the main strand's message off its link. */
  lemma ChanArrives(c: Setup, n: Node, s: Stage, side: Side, l: Link, e: Envelope, backend: Launch.Backend)
    returns (n1: Node)
    requires Cooperative(c.v) && s.Good? && TakenBy(side, s.m) && Token(c, s) == On(side, l, e)
    requires DaemonFits(c, n, s, side) && Q(n, l) != [] && Q(n, l)[0] == e
    ensures n1.net == Pop(n, l).net && SameBackground(n, n1) && DaemonFits(c, n1, Onward(s), side)
    ensures Deliver(n, l, c.v, backend) == Fine(PostAll(n1, Chan, Emits(c, Onward(s))))
  {
    ChanComputes(c, s, side, n.chan.value);
    TokenOffLnpd(c, s, side);
    var r := Channeld.Handle(n.chan.value, e.source, e.msg, c.v);
    ChanDelivers(n, l, c.v, backend, r);
    n1 := Pop(n, l).(chan := Some(r.d),
                     history := n.history + [Consumed(n.chan.value.state.machine, e.msg, c.v.core, r.sends)]);
  }

  lemma ChanTrade(c: Setup, g: Joint, s: Stage, side: Side, l: Link, e: Envelope, n1: Node)
    requires WellStaged(s) && s.Good? && TakenBy(side, s.m) && Token(c, s) == On(side, l, e)
    requires Carries(g, Inflight(c, s))
    ensures Q(At(g, side), l) != [] && Q(At(g, side), l)[0] == e
    ensures n1.net == Pop(At(g, side), l).net ==>
              Carries(WithNode(g, side, PostAll(n1, Chan, Emits(c, Onward(s)))), Inflight(c, Onward(s)))
  {
    var xs := Before(c, s);
    assert Inflight(c, s) == xs + [On(side, l, e)] + [];
    TokenOffLnpd(c, s, side);
    BeforeElsewhere(c, s, side, l);
    Head(g, xs, [], side, l, e);
    if n1.net == Pop(At(g, side), l).net {
      TradeOnLink(g, xs, [], side, l, e, Chan, Emits(c, Onward(s)), n1);
      ChanInflight(c, s, side);
      assert xs + [] == xs;
    }
  }

  lemma ChanStep(c: Setup, g: Joint, s: Stage, side: Side, l: Link, e: Envelope, backend: Launch.Backend)
    requires Shape(c, g, s) && s.Good? && TakenBy(side, s.m) && Token(c, s) == On(side, l, e)
    ensures Q(At(g, side), l) != []
    ensures Shape(c, Next(c, g, Take(side, l, backend)), Onward(s))
  {
    ChanTrade(c, g, s, side, l, e, At(g, side));
    var n1 := ChanArrives(c, At(g, side), s, side, l, e, backend);
    ChanTrade(c, g, s, side, l, e, n1);
    var n' := PostAll(n1, Chan, Emits(c, Onward(s)));
    PostAllFrame(n1, Chan, Emits(c, Onward(s)));
    QuietNext(c, g, side, l, backend, n');
    ChanShape(c, g, s, side, n');
  }

  lemma TokenOffLnpd(c: Setup, s: Stage, side: Side)
    requires s.Good? && TakenBy(side, s.m)
    ensures
      var t := Token(c, s);
      t.On? && (t.link == LnpdChan || t.link == SignChan || t.link == WatchChan || t.link == RouteChan || t.link == PeerChan)
  {
  }

  lemma PostAllFrame(n: Node, from: Who, es: seq<Envelope>)
    ensures PostAll(n, from, es) == n.(net := PostAll(n, from, es).net)
  {
    FundingSafety.PostAllFrame(n, from, es);
  }

  // ---------- Steps that only pass messages on ----------

  /** The two lists put the same messages on every link and wire. */
  ghost predicate SameMessages(xs: seq<Spot>, ys: seq<Spot>) {
    && (forall side, l :: OnLink(xs, side, l) == OnLink(ys, side, l))
    && (forall to :: OnWire(xs, to) == OnWire(ys, to))
  }

  lemma CarriesSame(g: Joint, xs: seq<Spot>, ys: seq<Spot>)
    requires Carries(g, xs) && SameMessages(xs, ys)
    ensures Carries(g, ys)
  {
  }

  /** A daemon of `side` takes `e` and sends `es`, going from stage `s` to stage `s'`. */
  lemma StageTrade(c: Setup, g: Joint, s: Stage, s': Stage, side: Side, l: Link, e: Envelope,
                   xs: seq<Spot>, ys: seq<Spot>, from: Who, es: seq<Envelope>, n1: Node)
    requires Carries(g, Inflight(c, s)) && Inflight(c, s) == xs + [On(side, l, e)] + ys && OnLink(xs, side, l) == []
    requires SameMessages(xs + ys + Spots(side, from, es), Inflight(c, s'))
    ensures Q(At(g, side), l) != [] && Q(At(g, side), l)[0] == e
    ensures n1.net == Pop(At(g, side), l).net ==>
              Carries(WithNode(g, side, PostAll(n1, from, es)), Inflight(c, s'))
  {
    Head(g, xs, ys, side, l, e);
    if n1.net == Pop(At(g, side), l).net {
      TradeOnLink(g, xs, ys, side, l, e, from, es, n1);
      CarriesSame(WithNode(g, side, PostAll(n1, from, es)), xs + ys + Spots(side, from, es), Inflight(c, s'));
    }
  }

  /** Nothing but messages differs between the stages. */
  ghost predicate SameScene(c: Setup, s: Stage, s': Stage) {
    && ExpectedFace(c, s', Funder) == ExpectedFace(c, s, Funder)
    && ExpectedFace(c, s', Fundee) == ExpectedFace(c, s, Fundee)
    && LauncherAt(c, s') == LauncherAt(c, s) && ReservedFor(c, s') == ReservedFor(c, s)
    && (s'.Good? && s'.m == 7 ==> s == s')
    && s.Good? == s'.Good? && (s.Bad? ==> s.k < 4 && s'.k < 4)
    && (s.Good? ==>
          && s'.psbt == s.psbt && (s'.publish == 3 <==> s.publish == 3)
          && (s'.m == 24 && s'.track <==> s.m == 24 && s.track))
  }

  lemma SceneShape(c: Setup, g: Joint, s: Stage, g': Joint, s': Stage)
    requires Shape(c, g, s) && WellStaged(s') && SameScene(c, s, s')
    requires SameBackground(g.a, g'.a) && g'.a.chan == g.a.chan && SameBackground(g.b, g'.b) && g'.b.chan == g.b.chan
    requires g'.chain == g.chain && g'.fault == g.fault && Carries(g', Inflight(c, s'))
    ensures Shape(c, g', s')
  {
    BrokersStay(c, g, g', s, s');
  }

  /** A stateless daemon passes the message on. */
  lemma PassStep(c: Setup, g: Joint, s: Stage, s': Stage, side: Side, l: Link, e: Envelope,
                 xs: seq<Spot>, ys: seq<Spot>, from: Who, es: seq<Envelope>, backend: Launch.Backend)
    requires Shape(c, g, s) && WellStaged(s') && SameScene(c, s, s')
    requires Inflight(c, s) == xs + [On(side, l, e)] + ys && OnLink(xs, side, l) == []
    requires SameMessages(xs + ys + Spots(side, from, es), Inflight(c, s'))
    requires Q(At(g, side), l) != []
    requires Deliver(At(g, side), l, c.v, backend) == Fine(PostAll(Pop(At(g, side), l), from, es))
    ensures Shape(c, Next(c, g, Take(side, l, backend)), s')
  {
    var n := At(g, side);
    var n1 := Pop(n, l);
    StageTrade(c, g, s, s', side, l, e, xs, ys, from, es, n1);
    var n' := PostAll(n1, from, es);
    PostAllFrame(n1, from, es);
    QuietNext(c, g, side, l, backend, n');
    SceneShape(c, g, s, WithNode(g, side, n'), s');
  }

  /** signd answers whoever asked. */
  lemma SigndPasses(n: Node, l: Link, e: Envelope, v: Channeld.Verdict, backend: Launch.Backend)
    requires (l == LnpdSign || l == ChanSign) && Q(n, l) != [] && Q(n, l)[0] == e
    ensures Deliver(n, l, v, backend) ==
            Fine(PostAll(Pop(n, l), Signd, [Envelope(Signer, e.source, Ctl(SigndReply(n, e)))]))
  {
    PostOne(Pop(n, l), Signd, Envelope(Signer, e.source, Ctl(SigndReply(n, e))));
  }

  lemma PostOne(n: Node, from: Who, e: Envelope)
    ensures PostAll(n, from, [e]) == Post(n, from, e)
  {
    assert [e][1..] == [];
  }

  predicate Relayed(side: Side, m: nat) {
    if side == Funder then m == 0 || m == 16 else m == 9
  }

  lemma RelayInflight(c: Setup, s: Stage, side: Side, l: Link, e: Envelope, reply: Envelope)
    requires WellStaged(s) && s.Good? && Relayed(side, s.m) && Token(c, s) == On(side, l, e)
    requires Token(c, Onward(s)).On? && Token(c, Onward(s)).e == reply
    ensures SameScene(c, s, Onward(s)) && WellStaged(Onward(s))
    ensures Inflight(c, s) == Before(c, s) + [On(side, l, e)] + []
    ensures Inflight(c, Onward(s)) == Before(c, s) + [] + Spots(side, Signd, [reply])
  {
    SpotsOfFew(side, Signd, [reply]);
  }

  lemma RelayReply(c: Setup, n: Node, s: Stage, side: Side, l: Link, e: Envelope)
    requires s.Good? && Relayed(side, s.m) && Token(c, s) == On(side, l, e)
    requires n.keys == if side == Funder then c.aKeys else c.bKeys
    ensures l == LnpdSign || l == ChanSign
    ensures Token(c, Onward(s)).On? && Token(c, Onward(s)).e == Envelope(Signer, e.source, Ctl(SigndReply(n, e)))
  {
  }

  lemma SigndStep(c: Setup, g: Joint, s: Stage, side: Side, l: Link, e: Envelope, backend: Launch.Backend)
    requires Shape(c, g, s) && s.Good? && Relayed(side, s.m) && Token(c, s) == On(side, l, e)
    ensures Q(At(g, side), l) != []
    ensures Shape(c, Next(c, g, Take(side, l, backend)), Onward(s))
  {
    var n := At(g, side);
    RelayReply(c, n, s, side, l, e);
    var reply := Envelope(Signer, e.source, Ctl(SigndReply(n, e)));
    RelayInflight(c, s, side, l, e, reply);
    BeforeElsewhere(c, s, side, l);
    Head(g, Before(c, s), [], side, l, e);
    SigndPasses(n, l, e, c.v, backend);
    PassStep(c, g, s, Onward(s), side, l, e, Before(c, s), [], Signd, [reply], backend);
  }

  // ---------- signd signs the funding transaction ----------

  lemma SwapMessages(xs: seq<Spot>, ys: seq<Spot>, b: Spot)
    requires |ys| <= 1 && b.On? && forall y | y in ys :: y.On? && y.link != b.link
    ensures SameMessages(xs + ys + [b], xs + [b] + ys)
  {
    if ys == [] {
      assert xs + ys + [b] == xs + [b] + ys;
    } else {
      forall side, l
        ensures OnLink(xs + ys + [b], side, l) == OnLink(xs + [b] + ys, side, l)
      {
        SwapOnLink(xs, ys[0], b, side, l);
        assert ys == [ys[0]];
      }
      forall to
        ensures OnWire(xs + ys + [b], to) == OnWire(xs + [b] + ys, to)
      {
        OnWireConcat(xs + ys, [b], to);
        OnWireConcat(xs, ys, to);
        OnWireConcat(xs + [b], ys, to);
        OnWireConcat(xs, [b], to);
        assert [b][1..] == [] && ys[1..] == [];
      }
    }
  }

  lemma SwapOnLink(xs: seq<Spot>, y: Spot, b: Spot, side: Side, l: Link)
    requires b.On? && y.On? && y.link != b.link
    ensures OnLink(xs + [y] + [b], side, l) == OnLink(xs + [b] + [y], side, l)
  {
    OnLinkConcat(xs + [y], [b], side, l);
    OnLinkConcat(xs, [y], side, l);
    OnLinkConcat(xs + [b], [y], side, l);
    OnLinkConcat(xs, [b], side, l);
    assert [b][1..] == [] && [y][1..] == [];
  }

  lemma FundingSignStep(c: Setup, g: Joint, s: Stage, backend: Launch.Backend)
    requires Shape(c, g, s) && s.Good? && s.m == 24 && s.publish == 1
    ensures Q(g.a, LnpdSign) != []
    ensures Shape(c, Next(c, g, Take(Funder, LnpdSign, backend)), s.(publish := 2))
  {
    var s' := s.(publish := 2);
    var e := Envelope(LnpBroker, Signer, Ctl(Sign(s.psbt)));
    var reply := Envelope(Signer, LnpBroker, Ctl(Signed(s.psbt.(signed := true))));
    var xs, ys := Before(c, s), Tracking(c, s);
    assert Inflight(c, s) == xs + [On(Funder, LnpdSign, e)] + ys;
    BeforeElsewhere(c, s, Funder, LnpdSign);
    Head(g, xs, ys, Funder, LnpdSign, e);
    SigndPasses(g.a, LnpdSign, e, c.v, backend);
    FundingSignInflight(c, s, reply);
    PassStep(c, g, s, s', Funder, LnpdSign, e, xs, ys, Signd, [reply], backend);
  }

  lemma FundingSignInflight(c: Setup, s: Stage, reply: Envelope)
    requires WellStaged(s) && s.Good? && s.m == 24 && s.publish == 1
    requires reply == Envelope(Signer, LnpBroker, Ctl(Signed(s.psbt.(signed := true))))
    ensures WellStaged(s.(publish := 2)) && SameScene(c, s, s.(publish := 2))
    ensures SameMessages(Before(c, s) + Tracking(c, s) + Spots(Funder, Signd, [reply]), Inflight(c, s.(publish := 2)))
  {
    var s' := s.(publish := 2);
    var b := On(Funder, SignLnpd, reply);
    SpotsOfFew(Funder, Signd, [reply]);
    assert Spots(Funder, Signd, [reply]) == [b];
    SwapMessages(Before(c, s), Tracking(c, s), b);
    assert Before(c, s') == Before(c, s) && Publication(c, s') == [b] && Tracking(c, s') == Tracking(c, s);
  }

  // ---------- routed ----------

  lemma RoutedPasses(n: Node, e: Envelope, v: Channeld.Verdict, backend: Launch.Backend)
    requires Q(n, ChanRoute) != [] && Q(n, ChanRoute)[0] == e
    ensures Deliver(n, ChanRoute, v, backend) ==
            Fine(PostAll(Pop(n, ChanRoute), Routed, if e.msg == Ctl(Hello) then [Envelope(Router, e.source, Ctl(Hello))] else []))
  {
    PostOne(Pop(n, ChanRoute), Routed, Envelope(Router, e.source, Ctl(Hello)));
  }

  /** The fundee's router notes the channel, then echoes the greeting. */
  lemma FundeeRoutedStep(c: Setup, g: Joint, s: Stage, backend: Launch.Backend)
    requires Shape(c, g, s) && s.Good? && (s.m == 29 || s.m == 30)
    ensures Q(g.b, ChanRoute) != []
    ensures Shape(c, Next(c, g, Take(Fundee, ChanRoute, backend)), Onward(s))
  {
    var cp := Channel(s.Id());
    var e := Envelope(cp, Router, Ctl(if s.m == 29 then ChannelCreated(s.Id()) else Hello));
    var xs := Before(c, s.(m := 30));
    var ys := if s.m == 29 then [Token(c, s)] else [];
    var es := if s.m == 29 then [] else [Envelope(Router, cp, Ctl(Hello))];
    FundeeRoutedInflight(c, s, e, xs, ys, es);
    BeforeElsewhere(c, s.(m := 30), Fundee, ChanRoute);
    Head(g, xs, ys, Fundee, ChanRoute, e);
    RoutedPasses(g.b, e, c.v, backend);
    PassStep(c, g, s, Onward(s), Fundee, ChanRoute, e, xs, ys, Routed, es, backend);
  }

  lemma FundeeRoutedInflight(c: Setup, s: Stage, e: Envelope, xs: seq<Spot>, ys: seq<Spot>, es: seq<Envelope>)
    requires WellStaged(s) && s.Good? && (s.m == 29 || s.m == 30) && xs == Before(c, s.(m := 30))
    requires
      var cp := Channel(s.Id());
      && e == Envelope(cp, Router, Ctl(if s.m == 29 then ChannelCreated(s.Id()) else Hello))
      && ys == (if s.m == 29 then [Token(c, s)] else [])
      && es == if s.m == 29 then [] else [Envelope(Router, cp, Ctl(Hello))]
    ensures WellStaged(Onward(s)) && SameScene(c, s, Onward(s))
    ensures Inflight(c, s) == xs + [On(Fundee, ChanRoute, e)] + ys
    ensures xs + ys + Spots(Fundee, Routed, es) == Inflight(c, Onward(s))
  {
    SpotsOfFew(Fundee, Routed, es);
  }

  lemma FunderRoutedStep(c: Setup, g: Joint, s: Stage, backend: Launch.Backend)
    requires Shape(c, g, s) && s.Good? && s.m == 35
    ensures Q(g.a, ChanRoute) != []
    ensures Shape(c, Next(c, g, Take(Funder, ChanRoute, backend)), Onward(s))
  {
    var e := Envelope(Channel(s.Id()), Router, Ctl(ChannelCreated(s.Id())));
    var xs := Before(c, s);
    FunderRoutedInflight(c, s, e);
    BeforeElsewhere(c, s, Funder, ChanRoute);
    Head(g, xs, [], Funder, ChanRoute, e);
    RoutedPasses(g.a, e, c.v, backend);
    PassStep(c, g, s, Onward(s), Funder, ChanRoute, e, xs, [], Routed, [], backend);
  }

  lemma FunderRoutedInflight(c: Setup, s: Stage, e: Envelope)
    requires WellStaged(s) && s.Good? && s.m == 35
    requires e == Envelope(Channel(s.Id()), Router, Ctl(ChannelCreated(s.Id())))
    ensures WellStaged(Onward(s)) && SameScene(c, s, Onward(s))
    ensures Inflight(c, s) == Before(c, s) + [On(Funder, ChanRoute, e)] + []
    ensures Before(c, s) + [] + Spots(Funder, Routed, []) == Inflight(c, Onward(s))
  {
  }

  // ---------- Peer daemons and the wires ----------

  function WireTo(g: Joint, to: Side): seq<LnMsg> { if to == Fundee then g.ab else g.ba }

  function WithWire(g: Joint, to: Side, wire: seq<LnMsg>): Joint {
    if to == Fundee then g.(ab := wire) else g.(ba := wire)
  }

  lemma SingleSpot(spot: Spot, side: Side, l: Link)
    ensures OnLink([spot], side, l) == if spot.On? && spot.side == side && spot.link == l then [spot.e] else []
    ensures OnWire([spot], side) == if spot.Wire? && spot.to == side then [spot.ln] else []
  {
    assert [spot][1..] == [];
  }

  /** A message leaves through the peer daemon. */
  lemma TradeToWire(g: Joint, xs: seq<Spot>, side: Side, e: Envelope, ln: LnMsg, n1: Node)
    requires Carries(g, xs + [On(side, ChanPeer, e)]) && OnLink(xs, side, ChanPeer) == []
    requires Q(At(g, side), ChanPeer) != [] && n1.net == Pop(At(g, side), ChanPeer).net
    ensures
      var to := Opposite(side);
      Carries(WithWire(WithNode(g, side, n1), to, WireTo(g, to) + [ln]), xs + [Wire(to, ln)])
  {
    var to := Opposite(side);
    var all := xs + [Wire(to, ln)];
    var g0 := WithWire(g, to, WireTo(g, to) + [ln]);
    forall k
      ensures Q(n1, k) == OnLink(all, side, k)
      ensures Q(At(g0, to), k) == OnLink(all, to, k)
    {
      LeavesLink(g, xs, side, e, n1, k);
      OffLink(xs, Wire(to, ln), side, k);
      OffLink(xs, Wire(to, ln), to, k);
      OffLink(xs, On(side, ChanPeer, e), to, k);
      assert Q(At(g, to), k) == OnLink(xs + [On(side, ChanPeer, e)], to, k);
    }
    EntersWire(g, xs, side, e, ln, Funder);
    EntersWire(g, xs, side, e, ln, Fundee);
    CarriesNow(g0, side, n1, all);
  }

  lemma OffLink(xs: seq<Spot>, spot: Spot, side: Side, k: Link)
    requires !(spot.On? && spot.side == side && spot.link == k)
    ensures OnLink(xs + [spot], side, k) == OnLink(xs, side, k)
  {
    OnLinkConcat(xs, [spot], side, k);
    SingleSpot(spot, side, k);
  }

  lemma EntersWire(g: Joint, xs: seq<Spot>, side: Side, e: Envelope, ln: LnMsg, w: Side)
    requires Carries(g, xs + [On(side, ChanPeer, e)])
    ensures
      var to := Opposite(side);
      WireTo(WithWire(g, to, WireTo(g, to) + [ln]), w) == OnWire(xs + [Wire(to, ln)], w)
  {
    var to := Opposite(side);
    OnWireConcat(xs, [Wire(to, ln)], w);
    OnWireConcat(xs, [On(side, ChanPeer, e)], w);
    SingleSpot(Wire(to, ln), w, ChanPeer);
    SingleSpot(On(side, ChanPeer, e), w, ChanPeer);
    assert WireTo(g, w) == OnWire(xs + [On(side, ChanPeer, e)], w);
  }

  lemma LeavesLink(g: Joint, xs: seq<Spot>, side: Side, e: Envelope, n1: Node, k: Link)
    requires Carries(g, xs + [On(side, ChanPeer, e)]) && OnLink(xs, side, ChanPeer) == []
    requires Q(At(g, side), ChanPeer) != [] && n1.net == Pop(At(g, side), ChanPeer).net
    ensures Q(n1, k) == OnLink(xs, side, k)
  {
    PoppedQueue(g, side, ChanPeer, n1, k);
    OnLinkConcat(xs, [On(side, ChanPeer, e)], side, k);
    SingleSpot(On(side, ChanPeer, e), side, k);
    assert Q(At(g, side), k) == OnLink(xs + [On(side, ChanPeer, e)], side, k);
  }

  /** A message arrives over the wire and is handed on. */
  lemma TradeFromWire(g: Joint, xs: seq<Spot>, to: Side, ln: LnMsg, e: Envelope, n1: Node)
    requires Carries(g, xs + [Wire(to, ln)]) && OnWire(xs, to) == [] && n1.net == At(g, to).net
    requires Line(Peer, e.dest).Some?
    ensures WireTo(g, to) == [ln]
    ensures Carries(WithWire(WithNode(g, to, Post(n1, Peer, e)), to, []), xs + [On(to, Line(Peer, e.dest).value, e)])
  {
    var l := Line(Peer, e.dest).value;
    var all := xs + [On(to, l, e)];
    var g0 := WithWire(g, to, []);
    LeavesWire(g, xs, to, ln, e, l, Funder);
    LeavesWire(g, xs, to, ln, e, l, Fundee);
    forall k
      ensures Q(Post(n1, Peer, e), k) == OnLink(all, to, k)
      ensures Q(At(g0, Opposite(to)), k) == OnLink(all, Opposite(to), k)
    {
      ArrivesOnLink(g, xs, to, ln, e, n1, k);
      OffLink(xs, Wire(to, ln), Opposite(to), k);
      OffLink(xs, On(to, l, e), Opposite(to), k);
      assert Q(At(g, Opposite(to)), k) == OnLink(xs + [Wire(to, ln)], Opposite(to), k);
    }
    CarriesNow(g0, to, Post(n1, Peer, e), all);
  }

  lemma LeavesWire(g: Joint, xs: seq<Spot>, to: Side, ln: LnMsg, e: Envelope, l: Link, w: Side)
    requires Carries(g, xs + [Wire(to, ln)]) && OnWire(xs, to) == []
    ensures WireTo(g, to) == [ln] && WireTo(WithWire(g, to, []), w) == OnWire(xs + [On(to, l, e)], w)
  {
    OnWireConcat(xs, [Wire(to, ln)], w);
    OnWireConcat(xs, [Wire(to, ln)], to);
    OnWireConcat(xs, [On(to, l, e)], w);
    SingleSpot(Wire(to, ln), w, l);
    SingleSpot(Wire(to, ln), to, l);
    SingleSpot(On(to, l, e), w, l);
    assert WireTo(g, w) == OnWire(xs + [Wire(to, ln)], w);
    assert WireTo(g, to) == OnWire(xs + [Wire(to, ln)], to);
  }

  lemma ArrivesOnLink(g: Joint, xs: seq<Spot>, to: Side, ln: LnMsg, e: Envelope, n1: Node, k: Link)
    requires Carries(g, xs + [Wire(to, ln)]) && n1.net == At(g, to).net && Line(Peer, e.dest).Some?
    ensures Q(Post(n1, Peer, e), k) == OnLink(xs + [On(to, Line(Peer, e.dest).value, e)], to, k)
  {
    var l := Line(Peer, e.dest).value;
    PostQueue(n1, to, Peer, e, k);
    OnLinkConcat(xs, [Wire(to, ln)], to, k);
    OnLinkConcat(xs, [On(to, l, e)], to, k);
    SingleSpot(Wire(to, ln), to, k);
    assert Q(n1, k) == Q(At(g, to), k) && Q(At(g, to), k) == OnLink(xs + [Wire(to, ln)], to, k);
  }

  /** Stages whose message is about to leave through the peer daemon of `side`. */
  predicate Leaving(side: Side, m: nat) {
    if side == Funder then m == 4 || m == 18 || m == 26 else m == 11 || m == 21 || m == 32
  }

  lemma LeavingInflight(c: Setup, s: Stage, side: Side)
    requires WellStaged(s) && s.Good? && Leaving(side, s.m)
    ensures
      var t := Token(c, s);
      && t.On? && t.side == side && t.link == ChanPeer && t.e.msg.Bolt?
      && WellStaged(Onward(s)) && SameScene(c, s, Onward(s))
      && Inflight(c, s) == Before(c, s) + [t]
      && Inflight(c, Onward(s)) == Before(c, s) + [Wire(Opposite(side), t.e.msg.bolt)]
  {
  }

  lemma PeerSendStep(c: Setup, g: Joint, s: Stage, side: Side, backend: Launch.Backend)
    requires Shape(c, g, s) && s.Good? && Leaving(side, s.m)
    ensures Q(At(g, side), ChanPeer) != []
    ensures Shape(c, Next(c, g, Take(side, ChanPeer, backend)), Onward(s))
  {
    LeavingInflight(c, s, side);
    PeerSends(c, g, s, side, Token(c, s).e, Token(c, s).e.msg.bolt, backend);
  }

  lemma PeerSends(c: Setup, g: Joint, s: Stage, side: Side, e: Envelope, ln: LnMsg, backend: Launch.Backend)
    requires Shape(c, g, s) && s.Good? && WellStaged(Onward(s)) && SameScene(c, s, Onward(s)) && e.msg == Bolt(ln)
    requires s.m != 29
    requires Inflight(c, s) == Before(c, s) + [On(side, ChanPeer, e)]
    requires Inflight(c, Onward(s)) == Before(c, s) + [Wire(Opposite(side), ln)]
    ensures Q(At(g, side), ChanPeer) != []
    ensures Shape(c, Next(c, g, Take(side, ChanPeer, backend)), Onward(s))
  {
    var n, xs := At(g, side), Before(c, s);
    BeforeElsewhere(c, s, side, ChanPeer);
    assert xs + [On(side, ChanPeer, e)] + [] == xs + [On(side, ChanPeer, e)];
    Head(g, xs, [], side, ChanPeer, e);
    var n1 := Pop(n, ChanPeer).(peers := Peerd.Outgoing(n.peers, ln));
    TradeToWire(g, xs, side, e, ln, n1);
    var to := Opposite(side);
    var g' := WithWire(WithNode(g, side, n1), to, WireTo(g, to) + [ln]);
    WireNext(c, g, side, e, ln, n1, backend);
    SceneShape(c, g, s, g', Onward(s));
  }

  lemma WireNext(c: Setup, g: Joint, side: Side, e: Envelope, ln: LnMsg, n1: Node, backend: Launch.Backend)
    requires Q(At(g, side), ChanPeer) != [] && Q(At(g, side), ChanPeer)[0] == e && e.msg == Bolt(ln) && g.fault.None?
    requires n1 == Pop(At(g, side), ChanPeer).(peers := Peerd.Outgoing(At(g, side).peers, ln))
    ensures Next(c, g, Take(side, ChanPeer, backend)) ==
            WithWire(WithNode(g, side, n1), Opposite(side), WireTo(g, Opposite(side)) + [ln])
  {
    assert g.ab + [] == g.ab && g.ba + [] == g.ba && g.chain + {} == g.chain;
  }

  predicate Crossing(to: Side, m: nat) {
    if to == Fundee then m == 5 || m == 19 || m == 27 else m == 12 || m == 22 || m == 33
  }

  lemma CrossingInflight(c: Setup, s: Stage, to: Side)
    requires WellStaged(s) && s.Good? && Crossing(to, s.m)
    ensures
      var t := Token(c, s);
      && t.Wire? && t.to == to && Peerd.Route(t.ln).Some? && Line(Peer, Peerd.Route(t.ln).value).Some?
      && WellStaged(Onward(s)) && SameScene(c, s, Onward(s))
      && Inflight(c, s) == Before(c, s) + [t]
      && var dest := Peerd.Route(t.ln).value;
         Inflight(c, Onward(s)) == Before(c, s) +
           [On(to, Line(Peer, dest).value, Envelope(PeerBolt(if to == Funder then c.aRemote else c.bRemote), dest, Bolt(t.ln)))]
  {
  }

  lemma CrossStep(c: Setup, g: Joint, s: Stage, to: Side)
    requires Shape(c, g, s) && s.Good? && Crossing(to, s.m)
    ensures WireTo(g, to) != []
    ensures Shape(c, Next(c, g, Cross(to)), Onward(s))
  {
    CrossingInflight(c, s, to);
    Crosses(c, g, s, to, Token(c, s).ln);
  }

  lemma Crosses(c: Setup, g: Joint, s: Stage, to: Side, ln: LnMsg)
    requires Shape(c, g, s) && s.Good? && WellStaged(Onward(s)) && SameScene(c, s, Onward(s)) && s.m != 29
    requires Peerd.Route(ln).Some? && Line(Peer, Peerd.Route(ln).value).Some?
    requires Inflight(c, s) == Before(c, s) + [Wire(to, ln)]
    requires
      var dest := Peerd.Route(ln).value;
      Inflight(c, Onward(s)) == Before(c, s) +
        [On(to, Line(Peer, dest).value, Envelope(PeerBolt(if to == Funder then c.aRemote else c.bRemote), dest, Bolt(ln)))]
    ensures WireTo(g, to) != []
    ensures Shape(c, Next(c, g, Cross(to)), Onward(s))
  {
    var n, xs := At(g, to), Before(c, s);
    var e := Envelope(PeerBolt(n.remote), Peerd.Route(ln).value, Bolt(ln));
    BeforeElsewhere(c, s, to, PeerChan);
    var n1 := n.(peers := Peerd.Incoming(n.peers, ln));
    TradeFromWire(g, xs, to, ln, e, n1);
    CrossNext(c, g, to, ln);
    PostKeepsScene(n1, Peer, e);
    var g' := WithWire(WithNode(g, to, Post(n1, Peer, e)), to, []);
    SceneShape(c, g, s, g', Onward(s));
  }

  lemma PostKeepsScene(n: Node, from: Who, e: Envelope)
    ensures SameBackground(n, Post(n, from, e)) && Post(n, from, e).chan == n.chan
  {
  }

  lemma CrossNext(c: Setup, g: Joint, to: Side, ln: LnMsg)
    requires WireTo(g, to) == [ln] && Peerd.Route(ln).Some?
    ensures
      var n := At(g, to);
      var n1 := n.(peers := Peerd.Incoming(n.peers, ln));
      Next(c, g, Cross(to)) ==
        WithWire(WithNode(g, to, Post(n1, Peer, Envelope(PeerBolt(n.remote), Peerd.Route(ln).value, Bolt(ln)))), to, [])
  {
    assert [ln][1..] == [];
  }

  // ---------- watchd ----------

  lemma TrackInflight(c: Setup, s: Stage, e: Envelope)
    requires WellStaged(s) && s.Good? && s.m == 24 && !s.track
    requires e == Envelope(Channel(s.Id()), Watch, Ctl(Track(s.psbt.txid, 0)))
    ensures WellStaged(s.(track := true))
    ensures Inflight(c, s) == Before(c, s) + Publication(c, s) + [On(Funder, ChanWatch, e)] + []
    ensures Before(c, s) + Publication(c, s) + [] + Spots(Funder, Watchd, []) == Inflight(c, s.(track := true))
    ensures OnLink(Before(c, s) + Publication(c, s), Funder, ChanWatch) == []
  {
    var s' := s.(track := true);
    assert Before(c, s') == Before(c, s) && Publication(c, s') == Publication(c, s) && Tracking(c, s') == [];
    NoneOnLink(Before(c, s) + Publication(c, s), Funder, ChanWatch);
  }

  lemma TrackStep(c: Setup, g: Joint, s: Stage, backend: Launch.Backend)
    requires Shape(c, g, s) && s.Good? && s.m == 24 && !s.track
    ensures Q(g.a, ChanWatch) != []
    ensures Shape(c, Next(c, g, Take(Funder, ChanWatch, backend)), s.(track := true))
  {
    var s' := s.(track := true);
    var e := Envelope(Channel(s.Id()), Watch, Ctl(Track(s.psbt.txid, 0)));
    var xs := Before(c, s) + Publication(c, s);
    TrackInflight(c, s, e);
    Head(g, xs, [], Funder, ChanWatch, e);
    var n1 := Pop(g.a, ChanWatch).(tracked := g.a.tracked[s.psbt.txid := Channel(s.Id())]);
    StageTrade(c, g, s, s', Funder, ChanWatch, e, xs, [], Watchd, [], n1);
    QuietNext(c, g, Funder, ChanWatch, backend, n1);
    TrackShape(c, g, s, n1);
  }

  lemma TrackShape(c: Setup, g: Joint, s: Stage, n1: Node)
    requires Shape(c, g, s) && s.Good? && s.m == 24 && !s.track
    requires n1.lnpd == g.a.lnpd && n1.chan == g.a.chan && n1.remote == g.a.remote && n1.keys == g.a.keys
    requires n1.tracked == g.a.tracked[s.psbt.txid := Channel(s.Id())]
    requires Carries(WithNode(g, Funder, n1), Inflight(c, s.(track := true)))
    ensures Shape(c, WithNode(g, Funder, n1), s.(track := true))
  {
    var g' := WithNode(g, Funder, n1);
    BrokersStay(c, g, g', s, s.(track := true));
    assert map[][s.psbt.txid := Channel(s.Id())] == map[s.psbt.txid := Channel(s.Id())];
  }

  lemma FindStep(c: Setup, g: Joint, s: Stage, txid: Slice32)
    requires Shape(c, g, s) && s.Good? && txid in g.a.tracked && txid in g.chain
    ensures s.m == 24 && s.publish == 3 && s.track && txid == s.psbt.txid
    ensures Shape(c, Next(c, g, Find(txid)), s.(m := 25))
  {
    var s' := s.(m := 25);
    var e := Envelope(Watch, Channel(s.Id()), Ctl(TxFound(txid)));
    var n1 := g.a.(tracked := g.a.tracked - {txid});
    var xs := Before(c, s);
    assert Inflight(c, s) == xs;
    assert Inflight(c, s') == xs + [On(Funder, WatchChan, e)];
    TradeAdd(g, xs, e, n1);
    FindShape(c, g, s, Post(n1, Watchd, e));
  }

  lemma TradeAdd(g: Joint, xs: seq<Spot>, e: Envelope, n1: Node)
    requires Carries(g, xs) && n1.net == g.a.net && Line(Watchd, e.dest) == Some(WatchChan)
    ensures Carries(WithNode(g, Funder, Post(n1, Watchd, e)), xs + [On(Funder, WatchChan, e)])
  {
    var all := xs + [On(Funder, WatchChan, e)];
    forall k
      ensures Q(Post(n1, Watchd, e), k) == OnLink(all, Funder, k) && Q(g.b, k) == OnLink(all, Fundee, k)
    {
      OnLinkConcat(xs, [On(Funder, WatchChan, e)], Funder, k);
      OnLinkConcat(xs, [On(Funder, WatchChan, e)], Fundee, k);
      SingleSpot(On(Funder, WatchChan, e), Funder, k);
      SingleSpot(On(Funder, WatchChan, e), Fundee, k);
      assert Q(n1, k) == Q(g.a, k);
    }
    OnWireConcat(xs, [On(Funder, WatchChan, e)], Funder);
    OnWireConcat(xs, [On(Funder, WatchChan, e)], Fundee);
    SingleSpot(On(Funder, WatchChan, e), Funder, WatchChan);
    SingleSpot(On(Funder, WatchChan, e), Fundee, WatchChan);
    CarriesNow(g, Funder, Post(n1, Watchd, e), all);
  }

  lemma FindShape(c: Setup, g: Joint, s: Stage, n': Node)
    requires Shape(c, g, s) && s.Good? && s.m == 24 && s.publish == 3 && s.track
    requires n'.lnpd == g.a.lnpd && n'.chan == g.a.chan && n'.remote == g.a.remote && n'.keys == g.a.keys
    requires n'.tracked == g.a.tracked - {s.psbt.txid}
    requires Carries(WithNode(g, Funder, n'), Inflight(c, s.(m := 25)))
    ensures Shape(c, WithNode(g, Funder, n'), s.(m := 25))
  {
    var g' := WithNode(g, Funder, n');
    BrokersStay(c, g, g', s, s.(m := 25));
    assert map[s.psbt.txid := Channel(s.Id())] - {s.psbt.txid} == map[];
  }

  // ---------- lnpd ----------

  lemma BrokerDelivers(n: Node, l: Link, e: Envelope, ctl: CtlMsg, v: Channeld.Verdict, backend: Launch.Backend,
                       effect: Lnpd.Effect)
    requires (l == SignLnpd || l == ChanLnpd) && Q(n, l) != [] && Q(n, l)[0] == e && e.msg == Ctl(ctl)
    requires effect == Lnpd.HandleCtl(n.lnpd, e.source, ctl, backend)
    requires effect.status == Lnpd.Ok && effect.launched.None? && effect.broadcast.None?
    ensures Deliver(n, l, v, backend) == Fine(PostAll(Pop(n, l).(lnpd := effect.state), Broker, effect.sends))
  {
  }

  lemma LnpdInvStays(s: Lnpd.State, source: ServiceId, ctl: CtlMsg, backend: Launch.Backend, s': Lnpd.State)
    requires Ledger.Inv(s) && Ledger.Fresh(s, Lnpd.Control(source, ctl, backend))
    requires s' == Lnpd.HandleCtl(s, source, ctl, backend).state
    ensures Ledger.Inv(s')
  {
    Ledger.StepConserves(s, Lnpd.Control(source, ctl, backend));
  }

  /** The funder's lnpd takes a message and its launcher moves on. */
  lemma FunderBrokerShape(c: Setup, g: Joint, s: Stage, s': Stage, n': Node)
    requires Shape(c, g, s) && WellStaged(s')
    requires n'.chan == g.a.chan && n'.tracked == g.a.tracked && n'.remote == g.a.remote && n'.keys == g.a.keys
    requires FunderBroker(c, n'.lnpd, s') && Carries(WithNode(g, Funder, n'), Inflight(c, s'))
    requires ExpectedFace(c, s', Funder) == ExpectedFace(c, s, Funder) && ExpectedFace(c, s', Fundee) == ExpectedFace(c, s, Fundee)
    requires s'.Good? && s'.m == 7 ==> s == s'
    requires Chain(WithNode(g, Funder, n'), s')
    ensures Shape(c, WithNode(g, Funder, n'), s')
  {
  }

  /** One delivery to the funder's lnpd that sends `es`. */
  lemma FunderBrokerStep(c: Setup, g: Joint, s: Stage, s': Stage, l: Link, e: Envelope, ctl: CtlMsg,
                         xs: seq<Spot>, ys: seq<Spot>, backend: Launch.Backend, effect: Lnpd.Effect)
    requires Shape(c, g, s) && WellStaged(s') && (l == SignLnpd || l == ChanLnpd) && e.msg == Ctl(ctl)
    requires Inflight(c, s) == xs + [On(Funder, l, e)] + ys && OnLink(xs, Funder, l) == []
    requires SameMessages(xs + ys + Spots(Funder, Broker, effect.sends), Inflight(c, s'))
    requires effect == Lnpd.HandleCtl(g.a.lnpd, e.source, ctl, backend)
    requires effect.status == Lnpd.Ok && effect.launched.None? && effect.broadcast.None?
    requires FunderBroker(c, effect.state, s')
    requires ExpectedFace(c, s', Funder) == ExpectedFace(c, s, Funder) && ExpectedFace(c, s', Fundee) == ExpectedFace(c, s, Fundee)
    requires s'.Good? && s'.m == 7 ==> s == s'
    requires Chain(g, s')
    ensures Q(g.a, l) != []
    ensures Shape(c, Next(c, g, Take(Funder, l, backend)), s')
  {
    Head(g, xs, ys, Funder, l, e);
    BrokerDelivers(g.a, l, e, ctl, c.v, backend, effect);
    var n1 := Pop(g.a, l).(lnpd := effect.state);
    StageTrade(c, g, s, s', Funder, l, e, xs, ys, Broker, effect.sends, n1);
    PostAllFrame(n1, Broker, effect.sends);
    var n' := PostAll(n1, Broker, effect.sends);
    QuietNext(c, g, Funder, l, backend, n');
    FunderBrokerShape(c, g, s, s', n');
  }

  lemma KeysetInflight(c: Setup, s: Stage, e: Envelope)
    requires WellStaged(s) && s.Good? && s.m == 1 && Token(c, s) == On(Funder, SignLnpd, e)
    ensures Inflight(c, s) == Before(c, s) + [On(Funder, SignLnpd, e)] + []
    ensures Before(c, s) + [] + Spots(Funder, Broker, []) == Inflight(c, Onward(s))
    ensures WellStaged(Onward(s))
  {
  }

  lemma KeysetStep(c: Setup, g: Joint, s: Stage, backend: Launch.Backend)
    requires Shape(c, g, s) && s.Good? && s.m == 1
    ensures Q(g.a, SignLnpd) != []
    ensures Shape(c, Next(c, g, Take(Funder, SignLnpd, backend)), Onward(s))
  {
    var ct := Channel(c.temp);
    var ctl := Keyset(ct, c.aKeys);
    var e := Envelope(Signer, LnpBroker, Ctl(ctl));
    var n := g.a.lnpd;
    KeysetInflight(c, s, e);
    BeforeElsewhere(c, s, Funder, SignLnpd);
    assert Lnpd.At(n, Lnpd.Creating(ct)) == Some(Launch.Init(c.temp, c.request, c.client));
    LnpdSteps.KeysetInInit(n, c.temp, c.request, c.client, c.aKeys, backend);
    var launcher := Launch.Launching(c.temp, c.request, c.client, c.aKeys);
    var effect := Lnpd.Quiet(n.(creating := n.creating[ct := launcher]));
    LnpdInvStays(n, Signer, ctl, backend, effect.state);
    assert Lnpd.At(effect.state, Lnpd.Creating(ct)) == Some(launcher);
    FunderBrokerStep(c, g, s, Onward(s), SignLnpd, e, ctl, Before(c, s), [], backend, effect);
  }

  lemma HelloInflight(c: Setup, s: Stage, e: Envelope, sent: Envelope)
    requires WellStaged(s) && s.Good? && s.m == 2 && Token(c, s) == On(Funder, ChanLnpd, e)
    requires sent == Envelope(LnpBroker, Channel(c.temp), Ctl(OpenWith(Launch.Proposal(c.request, c.aParams, c.aKeys))))
    ensures Inflight(c, s) == [] + [On(Funder, ChanLnpd, e)] + []
    ensures [] + [] + Spots(Funder, Broker, [sent]) == Inflight(c, Onward(s))
    ensures WellStaged(Onward(s))
  {
    SpotsOfFew(Funder, Broker, [sent]);
  }

  lemma HelloEffect(c: Setup, n: Lnpd.State, s: Stage, sent: Envelope, backend: Launch.Backend) returns (effect: Lnpd.Effect)
    requires FunderBroker(c, n, s) && s.Good? && s.m == 2
    requires sent == Envelope(LnpBroker, Channel(c.temp), Ctl(OpenWith(Launch.Proposal(c.request, c.aParams, c.aKeys))))
    ensures effect == Lnpd.HandleCtl(n, Channel(c.temp), Hello, backend)
    ensures effect == Lnpd.Effect(effect.state, [sent], None, None, Lnpd.Ok) && FunderBroker(c, effect.state, Onward(s))
  {
    var ct := Channel(c.temp);
    assert Lnpd.At(n, Lnpd.Creating(ct)) == Some(Launch.Launching(c.temp, c.request, c.client, c.aKeys));
    LnpdSteps.HelloInLaunching(n, c.temp, c.request, c.client, c.aKeys, backend);
    var launcher := Launch.Negotiating(c.temp, c.client);
    effect := Lnpd.Effect(Lnpd.Register(n, ct).(creating := n.creating[ct := launcher]), [sent], None, None, Lnpd.Ok);
    LnpdInvStays(n, ct, Hello, backend, effect.state);
    assert Lnpd.At(effect.state, Lnpd.Creating(ct)) == Some(launcher);
  }

  lemma HelloStep(c: Setup, g: Joint, s: Stage, backend: Launch.Backend)
    requires Shape(c, g, s) && s.Good? && s.m == 2
    ensures Q(g.a, ChanLnpd) != []
    ensures Shape(c, Next(c, g, Take(Funder, ChanLnpd, backend)), Onward(s))
  {
    var e := Envelope(Channel(c.temp), LnpBroker, Ctl(Hello));
    var sent := Envelope(LnpBroker, Channel(c.temp), Ctl(OpenWith(Launch.Proposal(c.request, c.aParams, c.aKeys))));
    HelloInflight(c, s, e, sent);
    var effect := HelloEffect(c, g.a.lnpd, s, sent, backend);
    FunderBrokerStep(c, g, s, Onward(s), ChanLnpd, e, Hello, [], [], backend, effect);
  }

  lemma FundingInflight(c: Setup, s: Stage, s': Stage, e: Envelope, sent: Envelope)
    requires WellStaged(s) && s.Good? && s.m == 14 && Token(c, s) == On(Funder, ChanLnpd, e)
    requires s'.Good? && s' == s.(m := 15, psbt := s'.psbt) && s'.psbt.vout == FIRST_OUTPUT
    requires sent == Envelope(LnpBroker, Channel(c.temp), Ctl(FundingConstructed(s'.psbt)))
    ensures Inflight(c, s) == [] + [On(Funder, ChanLnpd, e)] + []
    ensures [] + [] + Spots(Funder, Broker, [sent]) == Inflight(c, s')
    ensures WellStaged(s')
  {
    SpotsOfFew(Funder, Broker, [sent]);
  }

  lemma FundingStep(c: Setup, g: Joint, s: Stage, backend: Launch.Backend)
    requires Shape(c, g, s) && s.Good? && s.m == 14 && Enabled(c, g, Take(Funder, ChanLnpd, backend))
    ensures backend.funding.Funded?
    ensures Shape(c, Next(c, g, Take(Funder, ChanLnpd, backend)), s.(m := 15, psbt := backend.funding.psbt))
  {
    var e := Token(c, s).e;
    assert Inflight(c, s) == [] + [On(Funder, ChanLnpd, e)] + [];
    Head(g, [], [], Funder, ChanLnpd, e);
    var psbt := backend.funding.psbt;
    var s' := s.(m := 15, psbt := psbt);
    var sent := Envelope(LnpBroker, Channel(c.temp), Ctl(FundingConstructed(psbt)));
    FundingInflight(c, s, s', e, sent);
    FundingTaken(c, g, s, s', e, e.msg.ctl.fund, sent, backend);
  }

  lemma FundingTaken(c: Setup, g: Joint, s: Stage, s': Stage, e: Envelope, fund: FundChannel, sent: Envelope, backend: Launch.Backend)
    requires Shape(c, g, s) && s.Good? && s.m == 14 && WellStaged(s') && backend.funding.Funded?
    requires e == Envelope(Channel(c.temp), LnpBroker, Ctl(ConstructFunding(fund)))
    requires Ledger.Fresh(g.a.lnpd, Lnpd.Control(e.source, ConstructFunding(fund), backend))
    requires s' == s.(m := 15, psbt := backend.funding.psbt)
    requires sent == Envelope(LnpBroker, Channel(c.temp), Ctl(FundingConstructed(s'.psbt)))
    requires Inflight(c, s) == [] + [On(Funder, ChanLnpd, e)] + []
    requires [] + [] + Spots(Funder, Broker, [sent]) == Inflight(c, s')
    ensures Q(g.a, ChanLnpd) != []
    ensures Shape(c, Next(c, g, Take(Funder, ChanLnpd, backend)), s')
  {
    var effect := FundingEffect(c, g.a.lnpd, s, s', fund, sent, backend);
    FunderBrokerStep(c, g, s, s', ChanLnpd, e, ConstructFunding(fund), [], [], backend, effect);
  }

  lemma FundingEffect(c: Setup, n: Lnpd.State, s: Stage, s': Stage, fund: FundChannel, sent: Envelope, backend: Launch.Backend)
    returns (effect: Lnpd.Effect)
    requires FunderBroker(c, n, s) && s.Good? && s.m == 14 && backend.funding.Funded?
    requires Ledger.Fresh(n, Lnpd.Control(Channel(c.temp), ConstructFunding(fund), backend))
    requires s' == s.(m := 15, psbt := backend.funding.psbt) && s.publish == 0
    requires sent == Envelope(LnpBroker, Channel(c.temp), Ctl(FundingConstructed(s'.psbt)))
    ensures effect == Lnpd.HandleCtl(n, Channel(c.temp), ConstructFunding(fund), backend)
    ensures effect == Lnpd.Effect(effect.state, [sent], None, None, Lnpd.Ok) && FunderBroker(c, effect.state, s')
  {
    var ct, cp, psbt := Channel(c.temp), Channel(s'.Id()), s'.psbt;
    assert Lnpd.At(n, Lnpd.Creating(ct)) == Some(Launch.Negotiating(c.temp, c.client));
    LnpdSteps.FundingInNegotiating(n, c.temp, c.client, fund, backend);
    var launcher := Launch.Committing(s'.Id(), psbt.txid, c.client);
    effect := Lnpd.Effect(
      Lnpd.UpdateChannelId(n, c.temp, s'.Id()).(
        pending := Reservations.Reserve(n.pending, c.temp, psbt),
        creating := (n.creating - {ct})[cp := launcher]),
      [sent], None, None, Lnpd.Ok);
    LnpdInvStays(n, ct, ConstructFunding(fund), backend, effect.state);
    assert Lnpd.At(effect.state, Lnpd.Creating(cp)) == Some(launcher);
  }

  /** The greeting under the permanent id does not move the launcher. */
  lemma GreetingInflight(c: Setup, s: Stage, e: Envelope)
    requires WellStaged(s) && s.Good? && s.hello && e == Envelope(Channel(s.Id()), LnpBroker, Ctl(Hello))
    ensures WellStaged(s.(hello := false))
    ensures Inflight(c, s) == [] + [On(Funder, ChanLnpd, e)] + Inflight(c, s.(hello := false))
  {
    var s' := s.(hello := false);
    assert Before(c, s) == [On(Funder, ChanLnpd, e)] + Before(c, s');
  }

  lemma GreetingEffect(c: Setup, n: Lnpd.State, s: Stage, backend: Launch.Backend)
    requires FunderBroker(c, n, s) && WellStaged(s) && s.Good? && s.hello
    ensures
      var cp := Channel(s.Id());
      && Lnpd.HandleCtl(n, cp, Hello, backend) == Lnpd.Quiet(Lnpd.Register(n, cp))
      && FunderBroker(c, Lnpd.Register(n, cp), s.(hello := false))
  {
    var cp := Channel(s.Id());
    assert Lnpd.At(n, Lnpd.Creating(cp)) == Some(Launch.Committing(s.Id(), s.psbt.txid, c.client));
    LnpdSteps.HelloInCommitting(n, s.Id(), s.psbt.txid, c.client, backend);
    Ledger.SameLaunchersInv(n, Lnpd.Register(n, cp));
    assert Lnpd.At(Lnpd.Register(n, cp), Lnpd.Creating(cp)) == Lnpd.At(n, Lnpd.Creating(cp));
  }

  /** The side strands leave daemons, network and watcher alone. */
  lemma GreetingScene(c: Setup, g: Joint, s: Stage)
    requires s.Good? && Chain(g, s)
    ensures
      var s' := s.(hello := false);
      && ExpectedFace(c, s', Funder) == ExpectedFace(c, s, Funder)
      && ExpectedFace(c, s', Fundee) == ExpectedFace(c, s, Fundee) && Chain(g, s')
  {
  }

  lemma GreetingStep(c: Setup, g: Joint, s: Stage, backend: Launch.Backend)
    requires Shape(c, g, s) && s.Good? && s.hello
    ensures Q(g.a, ChanLnpd) != []
    ensures Shape(c, Next(c, g, Take(Funder, ChanLnpd, backend)), s.(hello := false))
  {
    var s', cp := s.(hello := false), Channel(s.Id());
    var e := Envelope(cp, LnpBroker, Ctl(Hello));
    GreetingInflight(c, s, e);
    GreetingEffect(c, g.a.lnpd, s, backend);
    GreetingScene(c, g, s);
    var ys := Inflight(c, s');
    assert [] + ys + Spots(Funder, Broker, []) == ys;
    FunderBrokerStep(c, g, s, s', ChanLnpd, e, Hello, [], ys, backend, Lnpd.Quiet(Lnpd.Register(g.a.lnpd, cp)));
  }

  lemma PublishInflight(c: Setup, s: Stage, e: Envelope, sent: Envelope)
    requires WellStaged(s) && s.Good? && s.m == 24 && s.publish == 0 && !s.hello
    requires e == Envelope(Channel(s.Id()), LnpBroker, Ctl(PublishFunding))
    requires sent == Envelope(LnpBroker, Signer, Ctl(Sign(s.psbt)))
    ensures WellStaged(s.(publish := 1))
    ensures Inflight(c, s) == Before(c, s) + [On(Funder, ChanLnpd, e)] + Tracking(c, s)
    ensures OnLink(Before(c, s), Funder, ChanLnpd) == []
    ensures SameMessages(Before(c, s) + Tracking(c, s) + Spots(Funder, Broker, [sent]), Inflight(c, s.(publish := 1)))
  {
    var s' := s.(publish := 1);
    var b := On(Funder, LnpdSign, sent);
    SpotsOfFew(Funder, Broker, [sent]);
    assert Spots(Funder, Broker, [sent]) == [b];
    SwapMessages(Before(c, s), Tracking(c, s), b);
    NoneOnLink(Before(c, s), Funder, ChanLnpd);
    assert Before(c, s') == Before(c, s) && Publication(c, s') == [b] && Tracking(c, s') == Tracking(c, s);
  }

  lemma PublishEffect(c: Setup, n: Lnpd.State, s: Stage, sent: Envelope, backend: Launch.Backend) returns (effect: Lnpd.Effect)
    requires FunderBroker(c, n, s) && WellStaged(s) && s.Good? && s.m == 24 && s.publish == 0
    requires sent == Envelope(LnpBroker, Signer, Ctl(Sign(s.psbt)))
    ensures effect == Lnpd.HandleCtl(n, Channel(s.Id()), PublishFunding, backend)
    ensures effect == Lnpd.Effect(effect.state, [sent], None, None, Lnpd.Ok) && FunderBroker(c, effect.state, s.(publish := 1))
  {
    var cp, x := Channel(s.Id()), s.psbt.txid;
    assert Lnpd.At(n, Lnpd.Creating(cp)) == Some(Launch.Committing(s.Id(), x, c.client));
    LnpdSteps.PublishInCommitting(n, s.Id(), x, c.client, backend);
    var launcher := Launch.Signing(s.Id(), x, c.client);
    effect := Lnpd.Effect(n.(creating := n.creating - {cp}, funding := n.funding[x := launcher]), [sent], None, None, Lnpd.Ok);
    LnpdInvStays(n, cp, PublishFunding, backend, effect.state);
    assert Lnpd.At(effect.state, Lnpd.FundingAt(x)) == Some(launcher);
  }

  lemma PublishStep(c: Setup, g: Joint, s: Stage, backend: Launch.Backend)
    requires Shape(c, g, s) && s.Good? && s.m == 24 && s.publish == 0 && !s.hello
    ensures Q(g.a, ChanLnpd) != []
    ensures Shape(c, Next(c, g, Take(Funder, ChanLnpd, backend)), s.(publish := 1))
  {
    var s' := s.(publish := 1);
    var e := Envelope(Channel(s.Id()), LnpBroker, Ctl(PublishFunding));
    var sent := Envelope(LnpBroker, Signer, Ctl(Sign(s.psbt)));
    PublishInflight(c, s, e, sent);
    var effect := PublishEffect(c, g.a.lnpd, s, sent, backend);
    FunderBrokerStep(c, g, s, s', ChanLnpd, e, PublishFunding, Before(c, s), Tracking(c, s), backend, effect);
  }

  lemma BroadcastInflight(c: Setup, s: Stage, e: Envelope)
    requires WellStaged(s) && s.Good? && s.m == 24 && s.publish == 2
    requires e == Envelope(Signer, LnpBroker, Ctl(Signed(s.psbt.(signed := true))))
    ensures WellStaged(s.(publish := 3))
    ensures Inflight(c, s) == Before(c, s) + [On(Funder, SignLnpd, e)] + Tracking(c, s)
    ensures Before(c, s) + Tracking(c, s) + Spots(Funder, Broker, []) == Inflight(c, s.(publish := 3))
  {
    var s' := s.(publish := 3);
    assert Before(c, s') == Before(c, s) && Publication(c, s') == [] && Tracking(c, s') == Tracking(c, s);
  }

  lemma BroadcastDelivers(n: Node, e: Envelope, psbt: Psbt, v: Channeld.Verdict, backend: Launch.Backend, effect: Lnpd.Effect)
    requires Q(n, SignLnpd) != [] && Q(n, SignLnpd)[0] == e && e.msg == Ctl(Signed(psbt))
    requires effect == Lnpd.HandleCtl(n.lnpd, e.source, Signed(psbt), backend)
    requires effect == Lnpd.Effect(effect.state, [], Some(psbt), None, Lnpd.Ok)
    ensures
      var n1 := Pop(n, SignLnpd).(lnpd := effect.state, history := n.history + [Broadcast(psbt.txid)]);
      Deliver(n, SignLnpd, v, backend) == Delivery(n1, [], Some(psbt.txid), None)
  {
  }

  lemma BroadcastStep(c: Setup, g: Joint, s: Stage, backend: Launch.Backend)
    requires Shape(c, g, s) && s.Good? && s.m == 24 && s.publish == 2 && backend.broadcastOk
    ensures Q(g.a, SignLnpd) != []
    ensures Shape(c, Next(c, g, Take(Funder, SignLnpd, backend)), s.(publish := 3))
  {
    var psbt, x := s.psbt.(signed := true), s.psbt.txid;
    var e := Envelope(Signer, LnpBroker, Ctl(Signed(psbt)));
    var n := g.a.lnpd;
    BroadcastInflight(c, s, e);
    BeforeElsewhere(c, s, Funder, SignLnpd);
    Head(g, Before(c, s), Tracking(c, s), Funder, SignLnpd, e);
    assert Lnpd.At(n, Lnpd.FundingAt(x)) == Some(Launch.Signing(s.Id(), x, c.client));
    LnpdSteps.SignedInSigning(n, s.Id(), x, c.client, psbt, backend);
    var effect := Lnpd.Effect(n.(funding := n.funding - {x}), [], Some(psbt), None, Lnpd.Ok);
    LnpdInvStays(n, Signer, Signed(psbt), backend, effect.state);
    BroadcastDelivers(g.a, e, psbt, c.v, backend, effect);
    var n1 := Pop(g.a, SignLnpd).(lnpd := effect.state, history := g.a.history + [Broadcast(x)]);
    StageTrade(c, g, s, s.(publish := 3), Funder, SignLnpd, e, Before(c, s), Tracking(c, s), Broker, [], n1);
    BroadcastShape(c, g, s, n1, backend);
  }

  lemma BroadcastShape(c: Setup, g: Joint, s: Stage, n1: Node, backend: Launch.Backend)
    requires Shape(c, g, s) && s.Good? && s.m == 24 && s.publish == 2 && Q(g.a, SignLnpd) != []
    requires Deliver(g.a, SignLnpd, c.v, backend) == Delivery(n1, [], Some(s.psbt.txid), None)
    requires n1.chan == g.a.chan && n1.tracked == g.a.tracked && n1.remote == g.a.remote && n1.keys == g.a.keys
    requires n1.lnpd == g.a.lnpd.(funding := g.a.lnpd.funding - {s.psbt.txid}) && Ledger.Inv(n1.lnpd)
    requires Carries(WithNode(g, Funder, n1), Inflight(c, s.(publish := 3)))
    ensures Shape(c, Next(c, g, Take(Funder, SignLnpd, backend)), s.(publish := 3))
  {
    BroadcastNext(c, g, s.psbt.txid, n1, backend);
    BroadcastScene(c, g, s, WithNode(g, Funder, n1).(chain := {s.psbt.txid}));
  }

  lemma BroadcastNext(c: Setup, g: Joint, txid: Slice32, n1: Node, backend: Launch.Backend)
    requires Q(g.a, SignLnpd) != [] && g.chain == {} && g.fault.None?
    requires Deliver(g.a, SignLnpd, c.v, backend) == Delivery(n1, [], Some(txid), None)
    ensures Next(c, g, Take(Funder, SignLnpd, backend)) == WithNode(g, Funder, n1).(chain := {txid})
  {
    assert g.ab + [] == g.ab && g.ba + [] == g.ba && g.chain + {txid} == {txid};
  }

  lemma BroadcastScene(c: Setup, g: Joint, s: Stage, g': Joint)
    requires Shape(c, g, s) && s.Good? && s.m == 24 && s.publish == 2
    requires g' == g.(a := g'.a, chain := {s.psbt.txid})
    requires g'.a.chan == g.a.chan && g'.a.tracked == g.a.tracked && g'.a.remote == g.a.remote && g'.a.keys == g.a.keys
    requires g'.a.lnpd == g.a.lnpd.(funding := g.a.lnpd.funding - {s.psbt.txid}) && Ledger.Inv(g'.a.lnpd)
    requires Carries(g, Inflight(c, s)) && Carries(g'.(chain := g.chain), Inflight(c, s.(publish := 3)))
    ensures Shape(c, g', s.(publish := 3))
  {
    assert Carries(g', Inflight(c, s.(publish := 3)));
  }
}
