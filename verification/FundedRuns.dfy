/** lnpd together with its funding wallet: every funding request of a launcher is answered by the
    wallet, and no launch is lost because the wallet promises no coin twice. */
module FundedRuns {
  import opened Types
  import Reservations
  import Launch
  import Lnpd
  import Ledger
  import LnpdSteps
  import CoinSelection
  import FeeLoop
  import Wallets = FundingWallet

  datatype Broker = Broker(lnpd: Lnpd.State, wallet: Wallets.Wallet)

  /** What happens to the broker: a request, control or peer message other than a request for
      funding, a request for funding, which the wallet answers with what the Electrum server and
      the transaction builder tell it, or a client's listing of funds. */
  datatype Event =
    | Message(event: Lnpd.Event)
    | Fund(source: ServiceId, fund: FundChannel, answers: Wallets.Answers)
    | List(answers: Wallets.Answers)

  /** The launcher that asks the wallet; in any other state the request is refused before. */
  predicate Asks(b: Broker, source: ServiceId) {
    source in b.lnpd.creating && b.lnpd.creating[source].Negotiating?
  }

  function RequestOf(b: Broker, e: Event): Wallets.Request
    requires e.Fund? && Asks(b, e.source)
  {
    Wallets.Request(b.lnpd.creating[e.source].Id(), e.fund.amount, e.fund.feeratePerKw)
  }

  function AnswerTo(b: Broker, e: Event): Wallets.Outcome
    requires e.Fund? && Asks(b, e.source)
  {
    Wallets.Answer(b.wallet, RequestOf(b, e), e.answers)
  }

  function ToLauncher(answer: Wallets.Outcome): Launch.WalletAnswer {
    match answer
    case Built(psbt) => Launch.Funded(psbt)
    case Broken => Launch.Broken
    case _ => Launch.Declined
  }

  /** The event as lnpd's handlers see it. */
  function Seen(b: Broker, e: Event): Lnpd.Event
    requires !e.List?
  {
    match e
    case Message(event) => event
    case Fund(source, fund, _) =>
      var answer := if Asks(b, source) then ToLauncher(AnswerTo(b, e)) else Launch.Declined;
      Lnpd.Control(source, ConstructFunding(fund), Launch.Backend(answer, true))
  }

  function Step(b: Broker, e: Event): Broker {
    match e
    case List(answers) => b.(wallet := Wallets.AfterListing(b.wallet, answers))
    case Message(event) => b.(lnpd := Lnpd.Step(b.lnpd, event).state)
    case Fund(source, _, answers) =>
      Broker(Lnpd.Step(b.lnpd, Seen(b, e)).state,
             if Asks(b, source) then Wallets.Constructed(b.wallet, RequestOf(b, e), answers) else b.wallet)
  }

  /** Launches are well kept, and lnpd and the wallet look at the same reservations. */
  ghost predicate Inv(b: Broker) {
    Ledger.Inv(b.lnpd) && b.lnpd.pending == b.wallet.data.pending
  }

  /** What is assumed of ids: a temporary id is new, and a funding that is built asks for
      something, has a txid that determines the coins it spends, and gives a permanent id that
      is not a temporary one in use. A call that never returns takes no step. */
  ghost predicate FreshIds(b: Broker, e: Event) {
    match e
    case List(_) => true
    case Message(Request(temp, _, _)) => !Ledger.Live(b.lnpd, temp) && Channel(temp) !in b.lnpd.creating
    case Message(event) => !(event.Control? && event.msg.ConstructFunding?)
    case Fund(source, _, _) =>
      Asks(b, source) ==>
        var answer, r := AnswerTo(b, e), RequestOf(b, e);
        && !answer.Looping?
        && (answer.Built? ==>
              && Reservations.CollisionFree(b.wallet.data.pending, answer.psbt)
              && CoinSelection.Target(r.amount, Wallets.RateFor(b.wallet, r)) > 0
              && var key := Channel(ChannelIdWith(answer.psbt.txid, FIRST_OUTPUT));
                 key in b.lnpd.creating ==> b.lnpd.creating[key].Committing?)
  }

  /** What the ledger assumes of the wallet's answers, the wallet provides. */
  lemma WalletIsAcceptable(b: Broker, e: Event)
    requires Inv(b) && FreshIds(b, e) && !e.List?
    ensures Ledger.Fresh(b.lnpd, Seen(b, e))
  {
    if e.Fund? && Asks(b, e.source) && AnswerTo(b, e).Built? {
      Wallets.FundingIsAcceptable(b.wallet, RequestOf(b, e), e.answers);
    }
  }

  lemma OthersNotAsked(s: Lnpd.State, source: ServiceId, fund: FundChannel, backend: Launch.Backend)
    requires !(source in s.creating && s.creating[source].Negotiating?) || !backend.funding.Funded?
    ensures Lnpd.HandleCtl(s, source, ConstructFunding(fund), backend).state.pending == s.pending
  {
    var place := Lnpd.Creating(source);
    if Lnpd.At(s, place).Some? {
      var l := Lnpd.At(s, place).value;
      Lnpd.ControlDrives(s, source, ConstructFunding(fund), backend, place);
      Lnpd.DriveFrame(s, place, l, source, ConstructFunding(fund), backend);
    } else {
      Lnpd.ControlSpares(s, source, ConstructFunding(fund), backend);
    }
  }

  lemma ReservationsStayEqual(b: Broker, e: Event)
    requires Inv(b) && FreshIds(b, e)
    ensures var b' := Step(b, e); b'.lnpd.pending == b'.wallet.data.pending
  {
    match e
    case List(_) =>
    case Message(event) =>
      Lnpd.PendingKept(b.lnpd, event);
    case Fund(source, fund, answers) =>
      if Asks(b, source) && AnswerTo(b, e).Built? {
        FundingReserved(b, e);
      } else {
        OthersNotAsked(b.lnpd, source, fund, Seen(b, e).backend);
      }
  }

  lemma FundingReserved(b: Broker, e: Event)
    requires Inv(b) && FreshIds(b, e) && e.Fund? && Asks(b, e.source) && AnswerTo(b, e).Built?
    ensures Step(b, e).lnpd.pending == Step(b, e).wallet.data.pending
  {
    var l := b.lnpd.creating[e.source];
    assert Lnpd.At(b.lnpd, Lnpd.Creating(e.source)) == Some(l);
    Wallets.FundingIsAcceptable(b.wallet, RequestOf(b, e), e.answers);
    LnpdSteps.FundingInNegotiating(b.lnpd, l.temp, l.enquirer, e.fund, Seen(b, e).backend);
  }

  lemma StepKeeps(b: Broker, e: Event)
    requires Inv(b) && FreshIds(b, e)
    ensures Inv(Step(b, e))
    ensures !e.List? ==> Ledger.Fresh(b.lnpd, Seen(b, e))
  {
    ReservationsStayEqual(b, e);
    if !e.List? {
      WalletIsAcceptable(b, e);
      Ledger.StepConserves(b.lnpd, Seen(b, e));
    }
  }

  // ---------- Runs ----------

  function Run(b: Broker, events: seq<Event>): Broker
    decreases |events|
  {
    if events == [] then b else Run(Step(b, events[0]), events[1..])
  }

  ghost predicate FreshRun(b: Broker, events: seq<Event>)
    decreases |events|
  {
    events == [] || (FreshIds(b, events[0]) && FreshRun(Step(b, events[0]), events[1..]))
  }

  /** The run as lnpd's handlers see it. */
  function SeenRun(b: Broker, events: seq<Event>): seq<Lnpd.Event>
    decreases |events|
  {
    if events == [] then []
    else (if events[0].List? then [] else [Seen(b, events[0])]) + SeenRun(Step(b, events[0]), events[1..])
  }

  lemma {:induction false} RunIsFresh(b: Broker, events: seq<Event>)
    requires Inv(b) && FreshRun(b, events)
    ensures Inv(Run(b, events))
    ensures Run(b, events).lnpd == Lnpd.Run(b.lnpd, SeenRun(b, events))
    ensures Ledger.FreshRun(b.lnpd, SeenRun(b, events))
    decreases |events|
  {
    if events != [] {
      StepKeeps(b, events[0]);
      RunIsFresh(Step(b, events[0]), events[1..]);
      var rest := SeenRun(Step(b, events[0]), events[1..]);
      if events[0].List? {
        assert SeenRun(b, events) == rest;
      } else {
        assert SeenRun(b, events)[1..] == rest;
      }
    }
  }

  /** No launch is lost or evicted by lnpd and its wallet: given new ids and txids that determine
      what they spend, after any run the launchers in lnpd's maps are exactly those started and
      not ended, each in one place, and no coin is promised to two of them. */
  lemma NoLaunchLost(b: Broker, events: seq<Event>)
    requires Inv(b) && FreshRun(b, events)
    ensures
      var s := Run(b, events).lnpd;
      && Ledger.Inv(s) && Reservations.WellFormed(Run(b, events).wallet.data.pending)
      && forall temp :: Ledger.Live(s, temp) <==>
           Ledger.Open(b.lnpd, SeenRun(b, events), temp, Ledger.Live(b.lnpd, temp))
  {
    RunIsFresh(b, events);
    Ledger.NoLaunchLost(b.lnpd, SeenRun(b, events));
  }

  /** Why a funding has to ask for something: a request for nothing at no fee spends nothing, so
      its txid need not be new, and a launcher under the same permanent id is overwritten
      without having ended. */
  lemma EmptyFundingEvicts(b: Broker, e: Event, x: Slice32)
    requires Inv(b) && e.Fund? && Asks(b, e.source) && AnswerTo(b, e).Built? && AnswerTo(b, e).psbt.txid == x
    requires CoinSelection.Target(RequestOf(b, e).amount, Wallets.RateFor(b.wallet, RequestOf(b, e))) == 0
    requires x in b.lnpd.pending && b.lnpd.pending[x].prevOutpoints == [] && b.lnpd.pending[x].temp != RequestOf(b, e).temp
    requires
      var key := Channel(ChannelIdWith(x, FIRST_OUTPUT));
      key in b.lnpd.creating && b.lnpd.creating[key].Committing? && b.lnpd.creating[key].txid == x
    ensures Reservations.CollisionFree(b.wallet.data.pending, AnswerTo(b, e).psbt)
    ensures Ledger.Live(b.lnpd, b.lnpd.pending[x].temp) && Ledger.Ended(b.lnpd, Seen(b, e)).None?
    ensures !Ledger.Live(Step(b, e).lnpd, b.lnpd.pending[x].temp)
  {
    var s, temp := b.lnpd, b.lnpd.pending[x].temp;
    var place := Lnpd.Creating(Channel(ChannelIdWith(x, FIRST_OUTPUT)));
    Wallets.NothingIsSpent(b.wallet, RequestOf(b, e), e.answers);
    var l := s.creating[e.source];
    assert Lnpd.At(s, Lnpd.Creating(e.source)) == Some(l);
    LnpdSteps.FundingInNegotiating(s, l.temp, l.enquirer, e.fund, Seen(b, e).backend);
    assert Ledger.OriginAt(s, place) == Some(temp);
    Overwritten(s, Step(b, e).lnpd, e.source, ChannelIdWith(x, FIRST_OUTPUT), x, l.enquirer, l.temp, AnswerTo(b, e).psbt);
  }

  /** A launcher put in the place of another that has the same txid leaves no trace of it. */
  lemma Overwritten(s: Lnpd.State, s': Lnpd.State, source: ServiceId, id: Slice32, x: Slice32, client: ClientId,
                    temp: Slice32, psbt: Psbt)
    requires Ledger.Separate(s) && x in s.pending && s.pending[x].temp != temp && psbt.txid == x
    requires Ledger.OriginAt(s, Lnpd.Creating(Channel(id))) == Some(s.pending[x].temp)
    requires s'.creating == (s.creating - {source})[Channel(id) := Launch.Committing(id, x, client)]
    requires s'.funding == s.funding && s'.pending == Reservations.Reserve(s.pending, temp, psbt)
    ensures !Ledger.Live(s', s.pending[x].temp)
  {
    var place, lost := Lnpd.Creating(Channel(id)), s.pending[x].temp;
    forall p
      ensures Ledger.OriginAt(s', p) != Some(lost)
    {
      if p != place && p != Lnpd.Creating(source) {
        assert Lnpd.At(s', p) == Lnpd.At(s, p);
        assert Ledger.OriginAt(s, p) == Some(lost) ==> p == place;
      }
    }
  }

  /** Such a broker: one launcher commits to a funding that spends nothing, another asks for
      nothing at no fee, and the builder gives it the same transaction. */
  function Careless(x: Slice32, first: Slice32, second: Slice32, params: ChannelParams): Broker {
    var id := ChannelIdWith(x, FIRST_OUTPUT);
    var psbt := Psbt(x, [], FIRST_OUTPUT, 0, 0, false);
    var pending := map[x := Reservations.PendingFunding(first, x, [], psbt)];
    var creating := map[Channel(id) := Launch.Committing(id, x, 0), Channel(second) := Launch.Negotiating(second, 1)];
    var data := Wallets.WalletData(0, 0, pending);
    Broker(Lnpd.State(creating, map[], map[], map[], map[], {}, {}, {}, pending, params), Wallets.Wallet(data, data, 0))
  }

  function CarelessFund(x: Slice32, second: Slice32): Event {
    Fund(Channel(second), FundChannel("", 0, None), Wallets.Answers(Some([]), Some([]), _ => 0, _ => true, _ => x, 0))
  }

  lemma CarelessInv(x: Slice32, first: Slice32, second: Slice32, params: ChannelParams)
    requires first != second && ChannelIdWith(x, FIRST_OUTPUT) != second
    ensures Inv(Careless(x, first, second, params))
  {
    var s := Careless(x, first, second, params).lnpd;
    var id := ChannelIdWith(x, FIRST_OUTPUT);
    forall p
      ensures Lnpd.At(s, p).Some? ==> p == Lnpd.Creating(Channel(id)) || p == Lnpd.Creating(Channel(second))
    {
    }
    assert Lnpd.Keyed(s);
    assert Ledger.OriginAt(s, Lnpd.Creating(Channel(id))) == Some(first);
    assert Ledger.OriginAt(s, Lnpd.Creating(Channel(second))) == Some(second);
    assert Ledger.Separate(s);
  }

  lemma CarelessAnswer(x: Slice32, first: Slice32, second: Slice32, params: ChannelParams)
    requires ChannelIdWith(x, FIRST_OUTPUT) != second
    ensures
      var b, e := Careless(x, first, second, params), CarelessFund(x, second);
      Asks(b, e.source) && AnswerTo(b, e).Built? && AnswerTo(b, e).psbt.txid == x
  {
    var b, e := Careless(x, first, second, params), CarelessFund(x, second);
    var r := RequestOf(b, e);
    assert Wallets.Listed(b.wallet, e.answers) == [];
    assert Wallets.Inputs(b.wallet, r, e.answers) == [];
    var job := Wallets.JobFor(b.wallet, r, e.answers);
    assert CoinSelection.Total([]) == 0;
    FeeLoop.SteadyWeightSettles(job, 0);
    assert FeeLoop.FullFee(job, 0) == 0;
  }

  /** A launch lost: the first one is live before the step, is not ended by it, and is gone. */
  lemma CarelessBrokerLosesLaunch(x: Slice32, first: Slice32, second: Slice32, params: ChannelParams)
    requires first != second && ChannelIdWith(x, FIRST_OUTPUT) != second
    ensures
      var b, e := Careless(x, first, second, params), CarelessFund(x, second);
      && Inv(b) && Ledger.Live(b.lnpd, first) && Ledger.Ended(b.lnpd, Seen(b, e)).None?
      && !Ledger.Live(Step(b, e).lnpd, first)
  {
    CarelessInv(x, first, second, params);
    CarelessAnswer(x, first, second, params);
    EmptyFundingEvicts(Careless(x, first, second, params), CarelessFund(x, second), x);
  }

  // ---------- Panics ----------

  /** When lnpd with its wallet panics: on a message naming no registered launcher, and on a
      funding request that breaks the wallet. */
  lemma PanicsExactlyWhen(b: Broker, e: Event)
    requires Inv(b) && !e.List?
    ensures Lnpd.Step(b.lnpd, Seen(b, e)).status == Lnpd.Panic <==>
            || Lnpd.Unregistered(b.lnpd, Seen(b, e))
            || Lnpd.WalletBreaks(b.lnpd, Seen(b, e))
    ensures e.Fund? ==>
              (Lnpd.Step(b.lnpd, Seen(b, e)).status == Lnpd.Panic <==>
                 e.source !in b.lnpd.creating || (Asks(b, e.source) && AnswerTo(b, e).Broken?))
  {
    Lnpd.PanicsExactlyWhen(b.lnpd, Seen(b, e));
  }

  lemma FundingPanics(b: Broker, e: Event)
    requires Inv(b) && e.Fund? && Asks(b, e.source)
    ensures Lnpd.Step(b.lnpd, Seen(b, e)).status == Lnpd.Panic <==> AnswerTo(b, e).Broken?
  {
    PanicsExactlyWhen(b, e);
  }

  /** For transactions of steady weight: on a funding request from a launcher that negotiates,
      exactly if the coins selected reach the target but a construction fails. Without overflow:
      the funds are worth amount and first estimate, and the inputs selected are worth less than
      amount and fee, or the builder fails for another reason. */
  lemma FundingPanicsExactlyWhen(b: Broker, e: Event, weight: nat)
    requires Inv(b) && e.Fund? && Asks(b, e.source) && Wallets.Lists(e.answers)
    requires forall fee :: e.answers.weight(fee) == weight
    ensures
      var r := RequestOf(b, e);
      var job, first := Wallets.JobFor(b.wallet, r, e.answers), 2 * Wallets.RateFor(b.wallet, r);
      var fee, funds := FeeLoop.FullFee(job, weight), CoinSelection.Total(Wallets.Listed(b.wallet, e.answers));
      var panics := Lnpd.Step(b.lnpd, Seen(b, e)).status == Lnpd.Panic;
      && (panics <==>
            Wallets.Suffices(b.wallet, r, e.answers)
            && (!FeeLoop.Constructs(job, first) || !FeeLoop.Constructs(job, fee)))
      && (funds < CoinSelection.TWO_64 && r.amount + first < CoinSelection.TWO_64 ==>
            (panics <==>
               funds >= r.amount + first
               && (r.amount + fee > job.total || !e.answers.builds(first) || !e.answers.builds(fee))))
  {
    FundingPanics(b, e);
    Wallets.BreaksExactlyWhen(b.wallet, RequestOf(b, e), e.answers, weight);
  }
}
