/** What opening a channel amounts to: the theorems about joint runs. */
module Opening {
  import opened Types
  import opened Node
  import opened Handshake
  import opened HandshakeSteps
  import opened HandshakeRuns
  import opened Registries
  import Launch
  import Lnpd
  import Ledger
  import Channeld
  import Peerd
  import Reservations
  import CoinSelection
  import FundedRuns
  import Wallets = FundingWallet

  // ---------- Good and bad runs ----------

  /** Before the launcher leaves its first state only the keyset and the greeting matter. */
  lemma EarlyMoves(c: Setup, g: Joint, s: Stage, act: Action)
    requires Shape(c, g, s) && s.Good? && s.m <= 1 && Enabled(c, g, act)
    ensures
      var s' := Advance(s, act);
      if act.Take? && act.side == Funder && act.link == SignLnpd then s'.Good? && s'.m == 2
      else if act.Take? && act.side == Funder && act.link == ChanLnpd then s'.Bad?
      else s'.Good? && s'.m <= 1
  {
    match act
    case Take(side, l, _) =>
      assert Q(At(g, side), l) == OnLink(Inflight(c, s), side, l);
      var x := SomeOnLink(Inflight(c, s), side, l);
      assert x in Before(c, s) || x == Token(c, s);
    case Cross(to) =>
      assert WireTo(g, to) == OnWire(Inflight(c, s), to);
      var x := SomeOnWire(Inflight(c, s), to);
      WireDue(c, s, x);
    case Find(_) =>
    case Elsewhere(_, _) =>
  }

  lemma {:induction false} StaysBad(s: Stage, acts: seq<Action>)
    requires s.Bad?
    ensures Fold(s, acts).Bad?
    decreases |acts|
  {
    if acts != [] {
      StaysBad(Advance(s, acts[0]), acts[1..]);
    }
  }

  lemma {:induction false} StaysGood(s: Stage, acts: seq<Action>)
    requires s.Good? && s.m >= 2
    ensures Fold(s, acts).Good?
    decreases |acts|
  {
    if acts != [] {
      StaysGood(Advance(s, acts[0]), acts[1..]);
    }
  }

  /** A run is good exactly if the keyset came first. */
  lemma {:induction false} GoodIffKeysetFirst(c: Setup, g: Joint, s: Stage, acts: seq<Action>)
    requires Shape(c, g, s) && s.Good? && s.m <= 1 && Valid(c, g, acts)
    ensures Fold(s, acts).Good? <==> KeysetFirst(acts)
    decreases |acts|
  {
    if acts != [] {
      var s' := Advance(s, acts[0]);
      EarlyMoves(c, g, s, acts[0]);
      if s'.Bad? {
        StaysBad(s', acts[1..]);
      } else if s'.m == 2 {
        StaysGood(s', acts[1..]);
      } else {
        Simulates(c, g, s, acts[0]);
        GoodIffKeysetFirst(c, Next(c, g, acts[0]), s', acts[1..]);
      }
    }
  }

  lemma FollowsFrom(c: Setup, g: Joint, s: Stage, acts: seq<Action>)
    requires Shape(c, g, s) && Registered(c, g, s) && s.Good? && s.m <= 1 && Valid(c, g, acts)
    ensures Shape(c, After(c, g, acts), Fold(s, acts)) && Registered(c, After(c, g, acts), Fold(s, acts))
    ensures (Fold(s, acts).Good? <==> KeysetFirst(acts)) && Count(Fold(s, acts)) == Count(s) + Own(acts)
  {
    RunKeepsRegistered(c, g, s, acts);
    RunFollows(c, g, s, acts);
    GoodIffKeysetFirst(c, g, s, acts);
  }

  /** The stage a run has reached. */
  lemma RunStage(c: Setup, g: Joint, acts: seq<Action>) returns (s: Stage)
    requires Idle(c, g) && Valid(c, Begin(c, g), acts)
    ensures Shape(c, After(c, Begin(c, g), acts), s)
    ensures s.Good? <==> KeysetFirst(acts)
    ensures Own(acts) == Count(s) && Registered(c, After(c, Begin(c, g), acts), s)
  {
    BeginsAtStart(c, g);
    FollowsFrom(c, Begin(c, g), StartStage(c), acts);
    s := Fold(StartStage(c), acts);
  }

  /** Joint safety: if lnpd gets the keyset before the daemon's greeting, no interleaving of the
      daemons loses a message, makes a daemon refuse one or makes lnpd panic, whatever goes on
      in other channels. */
  lemma HandshakeSafety(c: Setup, g: Joint, acts: seq<Action>)
    requires Idle(c, g) && Valid(c, Begin(c, g), acts) && KeysetFirst(acts)
    ensures After(c, Begin(c, g), acts).fault.None?
  {
    var _ := RunStage(c, g, acts);
  }

  // ---------- Progress ----------

  lemma {:induction false} Present(spots: seq<Spot>, x: Spot)
    requires x in spots && (x.On? || x.Wire?)
    ensures x.On? ==> OnLink(spots, x.side, x.link) != []
    ensures x.Wire? ==> OnWire(spots, x.to) != []
    decreases |spots|
  {
    if spots[0] != x {
      Present(spots[1..], x);
    }
  }

  /** A funding that is new to lnpd, as the wallet's are. */
  ghost predicate Suits(s: Lnpd.State, psbt: Psbt) {
    && Ledger.Acceptable(s.pending, psbt)
    && var key := Channel(ChannelIdWith(psbt.txid, psbt.vout));
       key in s.creating ==> s.creating[key].Committing?
  }

  lemma EarlyFunding(c: Setup, s: Stage)
    requires s.Good? && s.m < 24
    ensures
      var t := Token(c, s);
      t.On? && t.e.msg.Ctl? && t.e.msg.ctl.ConstructFunding? ==> s.m == 14
  {
  }

  lemma FundingRequested(c: Setup, s: Stage, x: Spot)
    requires WellStaged(s) && x in Inflight(c, s) && x.On? && x.e.msg.Ctl? && x.e.msg.ctl.ConstructFunding?
    ensures s.Good? && s.m == 14
  {
    if s.Good? {
      assert x !in Before(c, s);
      if s.m < 24 {
        EarlyFunding(c, s);
      }
    }
  }

  /** Whatever is in flight can be delivered. */
  lemma Deliverable(c: Setup, g: Joint, s: Stage, x: Spot, backend: Launch.Backend)
    requires Shape(c, g, s) && g.fault.None? && x in Inflight(c, s) && x.On? && backend.broadcastOk
    requires s.Good? && s.m == 14 ==> backend.funding.Funded? && Suits(g.a.lnpd, backend.funding.psbt)
    ensures Enabled(c, g, Take(x.side, x.link, backend))
  {
    var side, l := x.side, x.link;
    assert Q(At(g, side), l) == OnLink(Inflight(c, s), side, l);
    Present(Inflight(c, s), x);
    var y := SomeOnLink(Inflight(c, s), side, l);
    if y.e.msg.Ctl? && y.e.msg.ctl.ConstructFunding? {
      FundingRequested(c, s, y);
      assert Inflight(c, s) == [Token(c, s)];
    }
  }

  predicate Finished(s: Stage) { s.Good? && s.m == 36 && !s.update }

  lemma Waiting(c: Setup, s: Stage) returns (x: Spot)
    requires WellStaged(s) && s.Good? && !Finished(s) && !(s.m == 24 && s.publish == 3 && s.track)
    ensures x in Inflight(c, s) && (x.On? || x.Wire?)
    ensures s.m < 24 ==> x == Token(c, s)
  {
    if s.m == 24 {
      if s.publish < 3 {
        x := Publication(c, s)[0];
      } else {
        x := Tracking(c, s)[0];
      }
    } else if s.m == 36 {
      x := Before(c, s)[0];
    } else {
      TokenSomewhere(c, s);
      x := Token(c, s);
      assert x in [x];
    }
  }

  lemma TokenSomewhere(c: Setup, s: Stage)
    requires WellStaged(s) && s.Good? && s.m != 24 && s.m != 36
    ensures !Token(c, s).Nowhere?
  {
  }

  lemma StaysOnCourse(c: Setup, s: Stage, x: Spot, backend: Launch.Backend)
    requires s.Good? && x.On? && (s.m < 24 ==> x == Token(c, s))
    ensures Advance(s, Take(x.side, x.link, backend)).Good?
  {
    if s.m <= 1 {
      assert x.link != ChanLnpd;
    }
  }

  /** Until it is finished, the channel can always take another step: a message can be
      delivered, or the funding transaction found. */
  lemma Progress(c: Setup, g: Joint, s: Stage, psbt: Psbt) returns (act: Action)
    requires Shape(c, g, s) && s.Good? && !Finished(s)
    requires s.m == 14 ==> Suits(g.a.lnpd, psbt)
    ensures !act.Elsewhere? && Enabled(c, g, act) && Advance(s, act).Good?
    ensures act.Take? ==> act.backend.funding == Launch.Funded(psbt)
  {
    if s.m == 24 && s.publish == 3 && s.track {
      act := Find(s.psbt.txid);
    } else {
      var x := Waiting(c, s);
      Present(Inflight(c, s), x);
      if x.On? {
        var backend := Launch.Backend(Launch.Funded(psbt), true);
        Deliverable(c, g, s, x, backend);
        act := Take(x.side, x.link, backend);
        StaysOnCourse(c, s, x, backend);
      } else {
        act := Cross(x.to);
      }
    }
  }

  lemma BadProgress(c: Setup, g: Joint, k: nat) returns (act: Action)
    requires Shape(c, g, Bad(k)) && k < 4
    ensures !act.Elsewhere? && Enabled(c, g, act)
  {
    var x := Astray(c, k)[0];
    var backend := Launch.Backend(Launch.Declined, true);
    Deliverable(c, g, Bad(k), x, backend);
    act := Take(x.side, x.link, backend);
  }

  /** The channel has nothing more to do. */
  ghost predicate Stuck(c: Setup, g: Joint) {
    forall act: Action | !act.Elsewhere? :: !Enabled(c, g, act)
  }

  ghost predicate QueuesEmpty(g: Joint) {
    (forall l :: Q(g.a, l) == [] && Q(g.b, l) == []) && g.ab == [] && g.ba == []
  }

  /** Both channel daemons are active under the id of one funding transaction, which lnpd
      reserved for this channel and gave to the network, and both nodes have the channel
      registered under that id only. */
  ghost predicate Opened(c: Setup, g: Joint, txid: Slice32) {
    && g.chain == {txid} && txid in g.a.lnpd.pending && g.a.lnpd.pending[txid].temp == c.temp
    && g.a.chan.Some? && g.a.chan.value.state.machine == Channeld.Active
    && g.a.chan.value.identity == Channel(ChannelIdWith(txid, FIRST_OUTPUT))
    && g.b.chan.Some? && g.b.chan.value.state.machine == Channeld.Active
    && g.b.chan.value.identity == Channel(ChannelIdWith(txid, FIRST_OUTPUT))
    && RegisteredAs(c, g.a, ChannelIdWith(txid, FIRST_OUTPUT)) && RegisteredAs(c, g.b, ChannelIdWith(txid, FIRST_OUTPUT))
  }

  /** lnpd and peerd of the node know the channel by its permanent id and not by its temporary one. */
  predicate RegisteredAs(c: Setup, n: Node, id: Slice32) {
    && id in n.lnpd.channels && c.temp !in n.lnpd.channels
    && Peerd.Static(id) in n.peers && Peerd.Temporary(c.temp) !in n.peers
  }

  lemma FinishedIsOpened(c: Setup, g: Joint, s: Stage)
    requires Shape(c, g, s) && Finished(s) && Registered(c, g, s)
    ensures Opened(c, g, s.psbt.txid) && QueuesEmpty(g) && Count(s) == 42
  {
    assert Inflight(c, s) == [];
    assert forall l :: OnLink([], Funder, l) == [] && OnLink([], Fundee, l) == [];
    assert forall l :: Q(g.a, l) == OnLink(Inflight(c, s), Funder, l) && Q(g.b, l) == OnLink(Inflight(c, s), Fundee, l);
  }

  // ---------- The funder's wallet ----------

  /** The funder's wallet, and what it would be told if it were asked now. */
  datatype Purse = Purse(wallet: Wallets.Wallet, answers: Wallets.Answers)

  function RequestOf(c: Setup): Wallets.Request { Wallets.Request(c.temp, c.request.fundingSat, None) }

  /** What the wallet answers to the request of the observed channel: a funding, a refusal, a
      failure, or nothing ever. */
  function Offer(c: Setup, p: Purse): Wallets.Outcome { Wallets.Answer(p.wallet, RequestOf(c), p.answers) }

  /** The wallet is lnpd's: it has the same reservations. The channel costs something, and ids
      are told apart as ever. */
  ghost predicate Belongs(c: Setup, g: Joint, p: Purse) {
    && p.wallet.data.pending == g.a.lnpd.pending
    && CoinSelection.Target(c.request.fundingSat, p.wallet.feerate) > 0
    && (Offer(c, p).Built? ==>
          && Reservations.CollisionFree(g.a.lnpd.pending, Offer(c, p).psbt)
          && var key := Channel(ChannelIdWith(Offer(c, p).psbt.txid, FIRST_OUTPUT));
             key in g.a.lnpd.creating ==> g.a.lnpd.creating[key].Committing?)
  }

  lemma OfferSuits(c: Setup, g: Joint, p: Purse)
    requires Belongs(c, g, p) && Offer(c, p).Built?
    ensures Suits(g.a.lnpd, Offer(c, p).psbt)
  {
    Wallets.FundingIsAcceptable(p.wallet, RequestOf(c), p.answers);
  }

  /** lnpd is about to ask its wallet for the funding of the channel. */
  predicate Asked(g: Joint) {
    && Q(g.a, ChanLnpd) != [] && Q(g.a, ChanLnpd)[0].msg.Ctl?
    && Q(g.a, ChanLnpd)[0].msg.ctl.ConstructFunding?
  }

  lemma AskedExactlyThen(c: Setup, g: Joint, s: Stage)
    requires Shape(c, g, s)
    ensures Asked(g) <==> s.Good? && s.m == 14
  {
    assert Q(g.a, ChanLnpd) == OnLink(Inflight(c, s), Funder, ChanLnpd);
    if s.Good? && s.m == 14 {
      var x := Token(c, s);
      assert Inflight(c, s) == [x];
      Present(Inflight(c, s), x);
    }
    if Q(g.a, ChanLnpd) != [] {
      var y := SomeOnLink(Inflight(c, s), Funder, ChanLnpd);
      if Asked(g) {
        FundingRequested(c, s, y);
      }
    }
  }

  /** Joint progress: a run that can go no further, and is not waiting for a wallet that has no
      funding to offer, has opened the channel, after exactly 42 deliveries, if the keyset came
      first, and otherwise ended in a panic of lnpd after five. */
  lemma RunsEnd(c: Setup, g: Joint, acts: seq<Action>, p: Purse)
    requires Idle(c, g) && Valid(c, Begin(c, g), acts)
    requires
      var g' := After(c, Begin(c, g), acts);
      Stuck(c, g') && (Asked(g') ==> Belongs(c, g', p) && Offer(c, p).Built?)
    ensures
      var g' := After(c, Begin(c, g), acts);
      && (KeysetFirst(acts) ==> (exists txid :: Opened(c, g', txid)) && QueuesEmpty(g') && Own(acts) == 42)
      && (!KeysetFirst(acts) ==> g'.fault == Some(BrokerPanic) && g'.b.chan.None? && Own(acts) == 5)
  {
    var g' := After(c, Begin(c, g), acts);
    var s := RunStage(c, g, acts);
    if s.Good? {
      if !Finished(s) {
        var psbt := c.v.refund;
        AskedExactlyThen(c, g', s);
        if s.m == 14 {
          OfferSuits(c, g', p);
          psbt := Offer(c, p).psbt;
        }
        var act := Progress(c, g', s, psbt);
        assert false;
      }
      FinishedIsOpened(c, g', s);
    } else if s.k < 4 {
      var act := BadProgress(c, g', s.k);
      assert false;
    }
  }

  lemma {:induction false} Concat(c: Setup, g: Joint, acts: seq<Action>, more: seq<Action>)
    requires Valid(c, g, acts) && Valid(c, After(c, g, acts), more)
    ensures Valid(c, g, acts + more) && After(c, g, acts + more) == After(c, After(c, g, acts), more)
    decreases |acts|
  {
    if acts == [] {
      assert acts + more == more;
    } else {
      assert (acts + more)[1..] == acts[1..] + more;
      Concat(c, Next(c, g, acts[0]), acts[1..], more);
    }
  }

  /** The wallet in every state the nodes may come to. */
  type Bank = Joint -> Purse

  ghost predicate Sound(c: Setup, bank: Bank) {
    forall g :: Belongs(c, g, bank(g))
  }

  /** The request for funding gets the wallet's answer and no other. */
  ghost predicate Paid(c: Setup, g: Joint, act: Action, bank: Bank) {
    Asked(g) && act.Take? && act.side == Funder && act.link == ChanLnpd ==>
      act.backend.funding == FundedRuns.ToLauncher(Offer(c, bank(g)))
  }

  ghost predicate PaidRun(c: Setup, g: Joint, acts: seq<Action>, bank: Bank)
    requires Valid(c, g, acts)
    decreases |acts|
  {
    acts == [] || (Paid(c, g, acts[0], bank) && PaidRun(c, Next(c, g, acts[0]), acts[1..], bank))
  }

  /** The channel is open, or lnpd's wallet is asked and answers with something other than a
      funding: funds are short, the server is not reached, or the fee cannot be settled. */
  ghost predicate Concluded(c: Setup, g: Joint, bank: Bank) {
    (exists txid :: Opened(c, g, txid)) || (Asked(g) && !Offer(c, bank(g)).Built?)
  }

  /** One more step, with the wallet's answer if it is asked. */
  lemma Onwards(c: Setup, g: Joint, s: Stage, bank: Bank) returns (act: Action)
    requires Shape(c, g, s) && s.Good? && !Finished(s) && Sound(c, bank)
    requires Asked(g) ==> Offer(c, bank(g)).Built?
    ensures !act.Elsewhere? && Enabled(c, g, act) && Advance(s, act).Good? && Paid(c, g, act, bank)
  {
    AskedExactlyThen(c, g, s);
    var psbt := c.v.refund;
    if Asked(g) {
      assert Belongs(c, g, bank(g));
      OfferSuits(c, g, bank(g));
      psbt := Offer(c, bank(g)).psbt;
    }
    act := Progress(c, g, s, psbt);
  }

  lemma Follows(c: Setup, g: Joint, s: Stage, act: Action, g': Joint, s': Stage)
    requires Shape(c, g, s) && Registered(c, g, s) && Enabled(c, g, act) && !act.Elsewhere?
    requires g' == Next(c, g, act) && s' == Advance(s, act)
    ensures Shape(c, g', s') && Registered(c, g', s') && Count(s') == Count(s) + 1
  {
    Simulates(c, g, s, act);
    StepKeepsRegistered(c, g, s, act);
    StepCounts(c, g, s, act);
  }

  lemma FewerLeft(s: Stage)
    requires WellStaged(s)
    ensures Count(s) <= 42
  {
  }

  /** From every stage on course the channel can be opened, unless the wallet does not fund it. */
  lemma {:induction false} Completion(c: Setup, g: Joint, s: Stage, bank: Bank) returns (more: seq<Action>)
    requires Shape(c, g, s) && s.Good? && Registered(c, g, s) && Sound(c, bank)
    ensures Valid(c, g, more) && PaidRun(c, g, more, bank) && Concluded(c, After(c, g, more), bank)
    decreases 42 - Count(s)
  {
    if Finished(s) {
      FinishedIsOpened(c, g, s);
      more := [];
    } else if Asked(g) && !Offer(c, bank(g)).Built? {
      more := [];
    } else {
      var act := Onwards(c, g, s, bank);
      var g', s' := Next(c, g, act), Advance(s, act);
      Follows(c, g, s, act, g', s');
      FewerLeft(s');
      var rest := Completion(c, g', s', bank);
      more := [act] + rest;
      Prepend(c, g, act, rest, bank);
    }
  }

  lemma Prepend(c: Setup, g: Joint, act: Action, rest: seq<Action>, bank: Bank)
    requires Enabled(c, g, act) && Paid(c, g, act, bank)
    requires Valid(c, Next(c, g, act), rest) && PaidRun(c, Next(c, g, act), rest, bank)
    ensures Valid(c, g, [act] + rest) && PaidRun(c, g, [act] + rest, bank)
    ensures After(c, g, [act] + rest) == After(c, Next(c, g, act), rest)
  {
    assert ([act] + rest)[1..] == rest;
  }

  /** No run with the keyset first is ever in a dead end: whatever the wallet would answer, the
      run can be continued with that answer until the channel is open, or until the wallet is
      asked and has no funding to give. */
  lemma RunsCanComplete(c: Setup, g: Joint, acts: seq<Action>, bank: Bank)
    requires Idle(c, g) && Valid(c, Begin(c, g), acts) && KeysetFirst(acts) && Sound(c, bank)
    ensures exists more ::
      && Valid(c, After(c, Begin(c, g), acts), more) && PaidRun(c, After(c, Begin(c, g), acts), more, bank)
      && Valid(c, Begin(c, g), acts + more) && Concluded(c, After(c, Begin(c, g), acts + more), bank)
  {
    var s := RunStage(c, g, acts);
    var more := Completion(c, After(c, Begin(c, g), acts), s, bank);
    Concat(c, Begin(c, g), acts, more);
  }

  /** A measure falls: no run takes more than 42 steps of its own. */
  lemma RunsAreBounded(c: Setup, g: Joint, acts: seq<Action>)
    requires Idle(c, g) && Valid(c, Begin(c, g), acts)
    ensures Own(acts) <= if KeysetFirst(acts) then 42 else 5
  {
    var _ := RunStage(c, g, acts);
  }

  // ---------- Order ----------

  predicate IsActive(n: Node) { n.chan.Some? && n.chan.value.state.machine == Channeld.Active }

  /** The funder is active only if the fundee already is, and the fundee only if the funding
      transaction is with the network. */
  lemma FundeeActiveFirst(c: Setup, g: Joint, acts: seq<Action>)
    requires Idle(c, g) && Valid(c, Begin(c, g), acts)
    ensures
      var g' := After(c, Begin(c, g), acts);
      (IsActive(g'.a) ==> IsActive(g'.b)) && (IsActive(g'.b) ==> g'.chain != {})
  {
    var s := RunStage(c, g, acts);
    ActiveOrder(c, After(c, Begin(c, g), acts), s);
  }

  lemma ActiveOrder(c: Setup, g: Joint, s: Stage)
    requires DaemonFits(c, g.a, s, Funder) && DaemonFits(c, g.b, s, Fundee) && Chain(g, s) && WellStaged(s)
    ensures (IsActive(g.a) ==> IsActive(g.b)) && (IsActive(g.b) ==> g.chain != {})
  {
    if IsActive(g.a) {
      assert FaceOf(g.a.chan.value).state.machine == Channeld.Active;
      assert s.Good? && s.m >= 35;
    }
    if IsActive(g.b) {
      assert FaceOf(g.b.chan.value).state.machine == Channeld.Active;
      assert s.Good? && s.m >= 32;
    }
  }

  // ---------- Addressing ----------

  lemma {:induction false} EachOnLink(spots: seq<Spot>, side: Side, l: Link, e: Envelope)
    requires e in OnLink(spots, side, l)
    ensures On(side, l, e) in spots
    decreases |spots|
  {
    if spots[0] != On(side, l, e) {
      EachOnLink(spots[1..], side, l, e);
    }
  }

  lemma {:induction false} EachOnWire(spots: seq<Spot>, to: Side, ln: LnMsg)
    requires ln in OnWire(spots, to)
    ensures Wire(to, ln) in spots
    decreases |spots|
  {
    if spots[0] != Wire(to, ln) {
      EachOnWire(spots[1..], to, ln);
    }
  }

  predicate ToChannel(l: Link) {
    l == LnpdChan || l == SignChan || l == WatchChan || l == RouteChan || l == PeerChan
  }

  /** The peer daemon of the receiving node will hand the message to a daemon that is there. */
  predicate Routable(id: Option<ServiceId>, ln: LnMsg) {
    if ln.OpenChannel? then Peerd.Route(ln) == Some(LnpBroker)
    else id.Some? && Peerd.Route(ln) == id
  }

  function Identity(c: Setup, s: Stage, side: Side): Option<ServiceId> {
    var face := ExpectedFace(c, s, side);
    if face.Some? then Some(face.value.identity) else None
  }

  /** The message at a spot is addressed to the identity its recipient has. */
  predicate Addressed(c: Setup, s: Stage, x: Spot) {
    match x
    case On(side, l, e) =>
      && (ToChannel(l) ==> Identity(c, s, side) == Some(e.dest))
      && (l == ChanPeer ==> e.msg.Bolt? && Routable(Identity(c, s, Opposite(side)), e.msg.bolt))
    case Wire(to, ln) => Routable(Identity(c, s, to), ln)
    case Nowhere => true
  }

  lemma EarlyAddressed(c: Setup, s: Stage)
    requires s.Good? && s.m < 12
    ensures Addressed(c, s, EarlyToken(c, s))
  {
  }

  lemma MiddleAddressed(c: Setup, s: Stage)
    requires s.Good? && 12 <= s.m < 24
    ensures Addressed(c, s, MiddleToken(c, s))
  {
  }

  lemma LateAddressed(c: Setup, s: Stage)
    requires s.Good? && 24 < s.m
    ensures Addressed(c, s, LateToken(c, s))
  {
  }

  lemma AllAddressed(c: Setup, s: Stage, x: Spot)
    requires WellStaged(s) && x in Inflight(c, s)
    ensures Addressed(c, s, x)
  {
    if s.Good? {
      if x in Before(c, s) {
        BesideDue(c, s, x);
      } else if s.m == 24 {
        PublicationDue(c, s, x);
      } else if s.m < 12 {
        EarlyAddressed(c, s);
      } else if s.m < 24 {
        MiddleAddressed(c, s);
      } else {
        LateAddressed(c, s);
      }
    }
  }

  function IdentityOf(n: Node): Option<ServiceId> {
    if n.chan.Some? then Some(n.chan.value.identity) else None
  }

  /** Every message on its way to a channel daemon, inside a node or between the nodes, is
      addressed to the identity the daemon has now. */
  ghost predicate WellAddressed(g: Joint) {
    && (forall side, l, e | ToChannel(l) && e in Q(At(g, side), l) :: IdentityOf(At(g, side)) == Some(e.dest))
    && (forall side, e | e in Q(At(g, side), ChanPeer) ::
          e.msg.Bolt? && Routable(IdentityOf(At(g, Opposite(side))), e.msg.bolt))
    && (forall to, ln | ln in WireTo(g, to) :: Routable(IdentityOf(At(g, to)), ln))
  }

  /** The daemons have the temporary id or the one permanent id, which lnpd computed from the
      funding it reserved. */
  ghost predicate OneId(c: Setup, g: Joint, id: Slice32) {
    && (forall x | x in g.a.lnpd.pending && g.a.lnpd.pending[x].temp == c.temp :: ChannelIdWith(x, FIRST_OUTPUT) == id)
    && (IdentityOf(g.a) == Some(Channel(c.temp)) || IdentityOf(g.a) == Some(Channel(id)))
    && (g.b.chan.Some? ==> IdentityOf(g.b) == Some(Channel(c.temp)) || IdentityOf(g.b) == Some(Channel(id)))
  }

  lemma StageAddressed(c: Setup, g: Joint, s: Stage)
    requires WellStaged(s) && Carries(g, Inflight(c, s))
    requires DaemonFits(c, g.a, s, Funder) && DaemonFits(c, g.b, s, Fundee)
    ensures WellAddressed(g)
  {
    assert forall side :: IdentityOf(At(g, side)) == Identity(c, s, side);
    forall side, l, e | e in Q(At(g, side), l)
      ensures Addressed(c, s, On(side, l, e))
    {
      assert Q(At(g, side), l) == OnLink(Inflight(c, s), side, l);
      EachOnLink(Inflight(c, s), side, l, e);
      AllAddressed(c, s, On(side, l, e));
    }
    forall to, ln | ln in WireTo(g, to)
      ensures Addressed(c, s, Wire(to, ln))
    {
      assert WireTo(g, to) == OnWire(Inflight(c, s), to);
      EachOnWire(Inflight(c, s), to, ln);
      AllAddressed(c, s, Wire(to, ln));
    }
  }

  lemma StageOneId(c: Setup, g: Joint, s: Stage)
    requires WellStaged(s) && DaemonFits(c, g.a, s, Funder) && DaemonFits(c, g.b, s, Fundee) && FunderBroker(c, g.a.lnpd, s)
    ensures OneId(c, g, if s.Good? then s.Id() else c.temp)
  {
    assert IdentityOf(g.a) == Identity(c, s, Funder) && IdentityOf(g.b) == Identity(c, s, Fundee);
  }

  /** Rename-safe addressing: although the two channel daemons and lnpd change to the permanent
      id at different moments, no message is ever on its way to an identity given up, and all
      of them compute the same id. */
  lemma AddressingSurvivesRenames(c: Setup, g: Joint, acts: seq<Action>)
    requires Idle(c, g) && Valid(c, Begin(c, g), acts)
    ensures
      var g' := After(c, Begin(c, g), acts);
      WellAddressed(g') && exists id :: OneId(c, g', id)
  {
    var g' := After(c, Begin(c, g), acts);
    var s := RunStage(c, g, acts);
    StageAddressed(c, g', s);
    StageOneId(c, g', s);
  }

  predicate ToLauncher(l: Link) { l == SignLnpd || l == ChanLnpd }

  /** The message is about the launcher of the observed channel. */
  predicate NamesLauncher(c: Setup, s: Stage, x: Spot) {
    x.On? && x.side == Funder && ToLauncher(x.link) ==>
      && x.e.msg.Ctl? && LauncherAt(c, s).Some?
      && Lnpd.Addressed(x.e.source, x.e.msg.ctl) == Some(LauncherAt(c, s).value.0)
  }

  lemma TokenNamesLauncher(c: Setup, s: Stage)
    requires WellStaged(s) && s.Good? && s.m != 24
    ensures NamesLauncher(c, s, Token(c, s))
  {
    var x := Token(c, s);
    if x.On? && x.side == Funder && ToLauncher(x.link) {
      TokenDue(c, s, x.side, x.link, x.e);
      assert s.m == 1 || s.m == 2 || s.m == 14;
    }
  }

  lemma AllNameLauncher(c: Setup, s: Stage, x: Spot)
    requires WellStaged(s) && s.Good? && x in Inflight(c, s)
    ensures NamesLauncher(c, s, x)
  {
    if x in Before(c, s) {
      BesideDue(c, s, x);
    } else if s.m == 24 {
      PublicationDue(c, s, x);
    } else {
      TokenNamesLauncher(c, s);
    }
  }

  /** Every message in flight to the funder's lnpd names, by its sender's id or its txid, a place
      where a launcher is registered now, although the launcher moves twice. */
  lemma LaunchersStayReachable(c: Setup, g: Joint, acts: seq<Action>, l: Link, e: Envelope)
    requires Idle(c, g) && Valid(c, Begin(c, g), acts) && KeysetFirst(acts)
    requires ToLauncher(l) && e in Q(After(c, Begin(c, g), acts).a, l)
    ensures
      var n := After(c, Begin(c, g), acts).a.lnpd;
      && e.msg.Ctl? && Lnpd.Addressed(e.source, e.msg.ctl).Some?
      && Lnpd.At(n, Lnpd.Addressed(e.source, e.msg.ctl).value).Some?
  {
    var g' := After(c, Begin(c, g), acts);
    var s := RunStage(c, g, acts);
    assert Q(g'.a, l) == OnLink(Inflight(c, s), Funder, l);
    EachOnLink(Inflight(c, s), Funder, l, e);
    AllNameLauncher(c, s, On(Funder, l, e));
  }
}
