/** The wallet that funds channels: it lists unreserved coins, picks some of them, allocates a
    change address, builds the funding transaction and reserves what it spends. */
module FundingWallet {
  import opened Types
  import opened Reservations
  import opened CoinSelection
  import opened FeeLoop
  import Launch
  import Lnpd
  import LnpdSteps
  import Ledger

  const LAST_INDEX: Index := 0x7FFF_FFFF

  /** The next derivation index, starting over after the last one. */
  function Inc(i: Index): Index { if i == LAST_INDEX then 0 else i + 1 }

  datatype Utxo = Utxo(outpoint: OutPoint, amount: U64)

  /** Coins the resolver found at one address index. */
  datatype Slot = Slot(index: Index, utxos: seq<Utxo>)

  type Scan = seq<Slot>

  /** What is kept on disk and reloaded. */
  datatype WalletData = WalletData(lastNormal: Index, lastChange: Index, pending: Table)

  datatype Wallet = Wallet(data: WalletData, disk: WalletData, feerate: U32)

  /** Answers of the resolver (None if it cannot be reached) and of the transaction builder:
      weight and id of the transaction as functions of the fee, and whether it can be built at
      all, which may fail for reasons of the resolver's. */
  datatype Answers = Answers(
    normal: Option<Scan>, change: Option<Scan>,
    weight: nat -> nat, builds: nat -> bool, txid: nat -> Slice32, satisfaction: nat)

  datatype Request = Request(temp: Slice32, amount: U64, feerate: Option<U32>)

  datatype Outcome =
    | Built(psbt: Psbt)
    | Electrum
    | InsufficientFunds
    | Broken       // the transaction builder fails and the wallet panics
    | Looping      // the fee never settles and the call does not return

  predicate Lists(a: Answers) { a.normal.Some? && a.change.Some? }

  // ---------- Listing funds ----------

  function Free(utxos: seq<Utxo>, reserved: set<OutPoint>): seq<Utxo> {
    if utxos == [] then []
    else (if utxos[0].outpoint in reserved then [] else [utxos[0]]) + Free(utxos[1..], reserved)
  }

  function AsFunds(utxos: seq<Utxo>, change: bool, index: Index): seq<Funds> {
    seq(|utxos|, i requires 0 <= i < |utxos| => Funds(utxos[i].outpoint, change, index, utxos[i].amount))
  }

  function FundsIn(scan: Scan, change: bool, reserved: set<OutPoint>): seq<Funds> {
    if scan == [] then []
    else FundsIn(scan[..|scan| - 1], change, reserved)
         + AsFunds(Free(scan[|scan| - 1].utxos, reserved), change, scan[|scan| - 1].index)
  }

  /** The index after the last address holding unreserved coins. */
  function IndexAfter(scan: Scan, last: Index, reserved: set<OutPoint>): Index {
    if scan == [] then last
    else
      var slot := scan[|scan| - 1];
      var before := IndexAfter(scan[..|scan| - 1], last, reserved);
      if Free(slot.utxos, reserved) != [] && slot.index >= before then Inc(slot.index) else before
  }

  /** One pass over a branch of the descriptor. */
  method Lookup(scan: Scan, change: bool, last: Index, reserved: set<OutPoint>)
    returns (funds: seq<Funds>, last': Index)
    ensures funds == FundsIn(scan, change, reserved) && last' == IndexAfter(scan, last, reserved)
    ensures forall f | f in funds :: f.outpoint !in reserved
  {
    funds, last' := [], last;
    var i := 0;
    while i < |scan|
      invariant i <= |scan|
      invariant funds == FundsIn(scan[..i], change, reserved) && last' == IndexAfter(scan[..i], last, reserved)
    {
      var slot := scan[i];
      assert scan[..i + 1][..i] == scan[..i];
      var free := Free(slot.utxos, reserved);
      if free != [] {
        if slot.index >= last' {
          last' := Inc(slot.index);
        }
        funds := funds + AsFunds(free, change, slot.index);
      }
      i := i + 1;
    }
    assert scan[..i] == scan;
    FundsAreFree(scan, change, reserved);
  }

  lemma {:induction false} FreeIsFree(utxos: seq<Utxo>, reserved: set<OutPoint>)
    ensures forall u | u in Free(utxos, reserved) :: u.outpoint !in reserved && u in utxos
    ensures forall u | u in utxos && u.outpoint !in reserved :: u in Free(utxos, reserved)
    decreases |utxos|
  {
    if utxos != [] {
      FreeIsFree(utxos[1..], reserved);
    }
  }

  lemma {:induction false} FundsAreFree(scan: Scan, change: bool, reserved: set<OutPoint>)
    ensures forall f | f in FundsIn(scan, change, reserved) :: f.outpoint !in reserved
    decreases |scan|
  {
    if scan != [] {
      FundsAreFree(scan[..|scan| - 1], change, reserved);
      FreeIsFree(scan[|scan| - 1].utxos, reserved);
    }
  }

  // ---------- Wallet operations on values ----------

  function Listed(w: Wallet, a: Answers): seq<Funds>
    requires a.normal.Some? && a.change.Some?
  {
    FundsIn(a.normal.value, false, Reserved(w.data.pending)) + FundsIn(a.change.value, true, Reserved(w.data.pending))
  }

  /** How often a scan reports a coin at an address. */
  function Reports(scan: Scan, index: Index, coin: Utxo): nat {
    if scan == [] then 0
    else
      var slot := scan[|scan| - 1];
      Reports(scan[..|scan| - 1], index, coin) + (if slot.index == index then multiset(slot.utxos)[coin] else 0)
  }

  /** No prospective channel has been promised the coin. */
  ghost predicate Unpromised(pending: Table, o: OutPoint) {
    forall x | x in pending :: o !in pending[x].prevOutpoints
  }

  lemma {:induction false} FreeCounts(utxos: seq<Utxo>, reserved: set<OutPoint>, coin: Utxo)
    ensures multiset(Free(utxos, reserved))[coin] == if coin.outpoint in reserved then 0 else multiset(utxos)[coin]
    decreases |utxos|
  {
    if utxos != [] {
      assert utxos == [utxos[0]] + utxos[1..];
      FreeCounts(utxos[1..], reserved, coin);
    }
  }

  lemma {:induction false} AsFundsCounts(utxos: seq<Utxo>, change: bool, index: Index, f: Funds)
    ensures multiset(AsFunds(utxos, change, index))[f] ==
            if f.change == change && f.index == index then multiset(utxos)[Utxo(f.outpoint, f.amount)] else 0
    decreases |utxos|
  {
    if utxos != [] {
      var init, u := utxos[..|utxos| - 1], utxos[|utxos| - 1];
      assert utxos == init + [u];
      assert AsFunds(utxos, change, index) == AsFunds(init, change, index) + [Funds(u.outpoint, change, index, u.amount)];
      AsFundsCounts(init, change, index, f);
    }
  }

  lemma {:induction false} FundsInCounts(scan: Scan, change: bool, reserved: set<OutPoint>, f: Funds)
    ensures multiset(FundsIn(scan, change, reserved))[f] ==
            if f.change == change && f.outpoint !in reserved then Reports(scan, f.index, Utxo(f.outpoint, f.amount)) else 0
    decreases |scan|
  {
    if scan != [] {
      var slot := scan[|scan| - 1];
      FundsInCounts(scan[..|scan| - 1], change, reserved, f);
      FreeCounts(slot.utxos, reserved, Utxo(f.outpoint, f.amount));
      AsFundsCounts(Free(slot.utxos, reserved), change, slot.index, f);
    }
  }

  /** The listing has a coin exactly as often as the scan of its branch reports it at its address,
      unless it is promised to some channel; then not at all. */
  lemma ListingIsExact(w: Wallet, a: Answers, f: Funds)
    requires Lists(a)
    ensures
      var scan := if f.change then a.change.value else a.normal.value;
      multiset(Listed(w, a))[f] ==
        if Unpromised(w.data.pending, f.outpoint) then Reports(scan, f.index, Utxo(f.outpoint, f.amount)) else 0
  {
    var reserved := Reserved(w.data.pending);
    FundsInCounts(a.normal.value, false, reserved, f);
    FundsInCounts(a.change.value, true, reserved, f);
    assert f.outpoint in reserved <==> !Unpromised(w.data.pending, f.outpoint);
  }

  lemma {:induction false} ReportedSomewhere(scan: Scan, index: Index, coin: Utxo)
    ensures Reports(scan, index, coin) > 0 <==> exists slot :: slot in scan && slot.index == index && coin in slot.utxos
    decreases |scan|
  {
    if scan != [] {
      var init, last := scan[..|scan| - 1], scan[|scan| - 1];
      ReportedSomewhere(init, index, coin);
      assert scan == init + [last];
      assert multiset(last.utxos)[coin] > 0 <==> coin in last.utxos;
      if last.index == index && coin in last.utxos {
        assert last in scan;
      }
    }
  }

  /** A coin is listed if and only if it is reported and unpromised. */
  lemma ListedExactlyWhen(w: Wallet, a: Answers, f: Funds)
    requires Lists(a)
    ensures
      var scan := if f.change then a.change.value else a.normal.value;
      f in Listed(w, a) <==>
        && Unpromised(w.data.pending, f.outpoint)
        && exists slot :: slot in scan && slot.index == f.index && Utxo(f.outpoint, f.amount) in slot.utxos
  {
    ListingIsExact(w, a, f);
    ReportedSomewhere(if f.change then a.change.value else a.normal.value, f.index, Utxo(f.outpoint, f.amount));
    assert f in Listed(w, a) <==> multiset(Listed(w, a))[f] > 0;
  }

  /** What the unpromised coins of an address, and of a scan, are worth. */
  ghost function WorthAt(utxos: seq<Utxo>, pending: Table): nat {
    if utxos == [] then 0
    else (if Unpromised(pending, utxos[0].outpoint) then utxos[0].amount else 0) + WorthAt(utxos[1..], pending)
  }

  ghost function Worth(scan: Scan, pending: Table): nat {
    if scan == [] then 0 else Worth(scan[..|scan| - 1], pending) + WorthAt(scan[|scan| - 1].utxos, pending)
  }

  lemma {:induction false} AsFundsTotal(utxos: seq<Utxo>, pending: Table, change: bool, index: Index)
    ensures Total(AsFunds(Free(utxos, Reserved(pending)), change, index)) == WorthAt(utxos, pending)
    decreases |utxos|
  {
    if utxos != [] {
      var reserved := Reserved(pending);
      AsFundsTotal(utxos[1..], pending, change, index);
      assert utxos[0].outpoint in reserved <==> !Unpromised(pending, utxos[0].outpoint);
      if utxos[0].outpoint !in reserved {
        var all := AsFunds(Free(utxos, reserved), change, index);
        assert all[1..] == AsFunds(Free(utxos[1..], reserved), change, index);
      } else {
        assert Free(utxos, reserved) == Free(utxos[1..], reserved);
      }
    }
  }

  lemma {:induction false} FundsInTotal(scan: Scan, change: bool, pending: Table)
    ensures Total(FundsIn(scan, change, Reserved(pending))) == Worth(scan, pending)
    decreases |scan|
  {
    if scan != [] {
      var init, slot := scan[..|scan| - 1], scan[|scan| - 1];
      FundsInTotal(init, change, pending);
      AsFundsTotal(slot.utxos, pending, change, slot.index);
      TotalConcat(FundsIn(init, change, Reserved(pending)), AsFunds(Free(slot.utxos, Reserved(pending)), change, slot.index));
    }
  }

  /** The listing is worth what both scans report and nobody was promised. */
  lemma ListingIsWorth(w: Wallet, a: Answers)
    requires Lists(a)
    ensures Total(Listed(w, a)) == Worth(a.normal.value, w.data.pending) + Worth(a.change.value, w.data.pending)
  {
    FundsInTotal(a.normal.value, false, w.data.pending);
    FundsInTotal(a.change.value, true, w.data.pending);
    TotalConcat(FundsIn(a.normal.value, false, Reserved(w.data.pending)), FundsIn(a.change.value, true, Reserved(w.data.pending)));
  }

  /** Listing moves both indexes on and saves; if the resolver fails nothing changes. */
  function AfterListing(w: Wallet, a: Answers): Wallet {
    if a.normal.None? || a.change.None? then w
    else
      var reserved := Reserved(w.data.pending);
      var data := w.data.(lastNormal := IndexAfter(a.normal.value, w.data.lastNormal, reserved),
                          lastChange := IndexAfter(a.change.value, w.data.lastChange, reserved));
      w.(data := data, disk := data)
  }

  function RateFor(w: Wallet, r: Request): U32 { if r.feerate.Some? then r.feerate.value else w.feerate }

  function Inputs(w: Wallet, r: Request, a: Answers): seq<Funds>
    requires a.normal.Some? && a.change.Some?
  {
    Selected(Listed(w, a), Target(r.amount, RateFor(w, r)))
  }

  function Outpoints(funds: seq<Funds>): seq<OutPoint> {
    seq(|funds|, i requires 0 <= i < |funds| => funds[i].outpoint)
  }

  function JobFor(w: Wallet, r: Request, a: Answers): Job
    requires a.normal.Some? && a.change.Some?
  {
    var inputs := Inputs(w, r, a);
    Job(a.weight, a.builds, a.satisfaction, |inputs|, Total(inputs), r.amount, RateFor(w, r))
  }

  function DraftWith(w: Wallet, r: Request, a: Answers, fee: nat): Psbt
    requires a.normal.Some? && a.change.Some?
  {
    Psbt(a.txid(fee), Outpoints(Inputs(w, r, a)), FIRST_OUTPUT, AfterListing(w, a).data.lastChange, fee, false)
  }

  /** Constructing a funding: what comes back. */
  function Answer(w: Wallet, r: Request, a: Answers): Outcome {
    if a.normal.None? || a.change.None? then Electrum
    else if SumU64(Inputs(w, r, a)) < Target(r.amount, RateFor(w, r)) then InsufficientFunds
    else
      match EndingOf(JobFor(w, r, a))
      case Settled(fee, _) => Built(DraftWith(w, r, a, fee))
      case Failed(_) => Broken
      case Endless => Looping
  }

  /** And what becomes of the wallet. Neither the change index handed out nor the reservation is
      saved. */
  function Constructed(w: Wallet, r: Request, a: Answers): Wallet {
    var w1 := AfterListing(w, a);
    var answer := Answer(w, r, a);
    if answer.Electrum? || answer.InsufficientFunds? then w1
    else
      var w2 := w1.(data := w1.data.(lastChange := Inc(w1.data.lastChange)));
      if answer.Built? then w2.(data := w2.data.(pending := Reserve(w2.data.pending, r.temp, answer.psbt))) else w2
  }

  function Reopened(w: Wallet): Wallet { w.(data := w.disk) }

  // ---------- The wallet as an object ----------

  class Store {
    var lastNormal: Index
    var lastChange: Index
    var pending: Table
    var disk: WalletData
    const feerate: U32

    ghost function View(): Wallet
      reads this
    {
      Wallet(WalletData(lastNormal, lastChange, pending), disk, feerate)
    }

    constructor (feerate: U32)
      ensures View() == Wallet(WalletData(0, 0, map[]), WalletData(0, 0, map[]), feerate)
      ensures WellFormed(pending)
    {
      this.feerate := feerate;
      lastNormal, lastChange, pending := 0, 0, map[];
      disk := WalletData(0, 0, map[]);
    }

    method Save()
      modifies `disk
      ensures View() == old(View()).(disk := old(View()).data)
    {
      disk := WalletData(lastNormal, lastChange, pending);
    }

    method ListFunds(a: Answers) returns (funds: Option<seq<Funds>>)
      modifies `lastNormal, `lastChange, `disk
      ensures View() == AfterListing(old(View()), a)
      ensures funds == if a.normal.Some? && a.change.Some? then Some(Listed(old(View()), a)) else None
      ensures funds.Some? ==> Total(funds.value) == Worth(a.normal.value, pending) + Worth(a.change.value, pending)
    {
      if a.normal.None? || a.change.None? {
        return None;
      }
      ListingIsWorth(View(), a);
      var reserved := Reserved(pending);
      var normal, lastNormal' := Lookup(a.normal.value, false, lastNormal, reserved);
      var change, lastChange' := Lookup(a.change.value, true, lastChange, reserved);
      lastNormal, lastChange := lastNormal', lastChange';
      Save();
      funds := Some(normal + change);
    }

    method ConstructFundingPsbt(r: Request, a: Answers) returns (answer: Outcome)
      modifies this
      requires WellFormed(pending)
      ensures answer == Answer(old(View()), r, a) && View() == Constructed(old(View()), r, a)
      ensures WellFormed(pending)
      ensures answer.Built? ==>
                && answer.psbt.txid in pending && pending[answer.psbt.txid].prevOutpoints == answer.psbt.inputs
                && exists cs :: Spends(answer.psbt, cs) && Total(cs) >= r.amount + answer.psbt.fee
    {
      var rate := if r.feerate.Some? then r.feerate.value else feerate;
      var target := AddU64(r.amount, 2 * rate);
      ReservationsStayDisjoint(View(), r, a);
      if Answer(View(), r, a).Built? {
        ghost var cs := FundingSpendsSelection(View(), r, a);
        FundingIsReserved(View(), r, a);
      }
      var funds := ListFunds(a);
      if funds.None? {
        return Electrum;
      }
      var inputs, acc := SelectCoins(SortByAmount(funds.value), target);
      if acc < target {
        return InsufficientFunds;
      }
      var changeIndex := lastChange;
      lastChange := Inc(changeIndex);
      var ending := SettleFee(Job(a.weight, a.builds, a.satisfaction, |inputs|, Total(inputs), r.amount, rate));
      match ending
      case Settled(fee, _) =>
        var psbt := Psbt(a.txid(fee), Outpoints(inputs), FIRST_OUTPUT, changeIndex, fee, false);
        pending := Reserve(pending, r.temp, psbt);
        answer := Built(psbt);
      case Failed(_) => answer := Broken;
      case Endless => answer := Looping;
    }

    /** What is found under a txid is the transaction with that id; it is what was returned when
        the funding was built (`BuiltStaysFound`). */
    method GetFundingPsbt(txid: Slice32) returns (psbt: Option<Psbt>)
      ensures psbt.Some? <==> txid in pending
      ensures psbt.Some? ==> psbt.value == pending[txid].psbt
      ensures WellFormed(pending) && psbt.Some? ==>
                psbt.value.txid == txid && psbt.value.inputs == pending[txid].prevOutpoints
    {
      psbt := if txid in pending then Some(pending[txid].psbt) else None;
    }
  }

  // ---------- Reservations ----------

  lemma SelectedInputsFree(w: Wallet, r: Request, a: Answers)
    requires a.normal.Some? && a.change.Some?
    ensures Unreserved(w.data.pending, Outpoints(Inputs(w, r, a)))
  {
    var reserved := Reserved(w.data.pending);
    var inputs := Inputs(w, r, a);
    FundsAreFree(a.normal.value, false, reserved);
    FundsAreFree(a.change.value, true, reserved);
    SelectionIsFromFunds(Listed(w, a), Target(r.amount, RateFor(w, r)));
    forall o | o in Outpoints(inputs)
      ensures o !in reserved
    {
      var i :| 0 <= i < |inputs| && o == inputs[i].outpoint;
      assert inputs[i] in multiset(inputs);
      assert inputs[i] in Listed(w, a);
    }
  }

  /** No construction promises a coin twice, whatever the resolver answers. */
  lemma ReservationsStayDisjoint(w: Wallet, r: Request, a: Answers)
    requires WellFormed(w.data.pending)
    ensures WellFormed(Constructed(w, r, a).data.pending)
  {
    var answer := Answer(w, r, a);
    if answer.Built? {
      SelectedInputsFree(w, r, a);
      ReserveKeepsWellFormed(w.data.pending, r.temp, answer.psbt);
    }
  }

  /** The resolver reports no coin twice. */
  ghost predicate Distinct(funds: seq<Funds>) {
    && (forall f | f in funds :: multiset(funds)[f] == 1)
    && (forall f, g | f in funds && g in funds && f.outpoint == g.outpoint :: f == g)
  }

  lemma DistinctPart(part: seq<Funds>, funds: seq<Funds>)
    requires Distinct(funds) && multiset(part) <= multiset(funds)
    ensures Distinct(part)
  {
    forall f | f in part
      ensures multiset(part)[f] == 1 && f in funds
    {
      assert f in multiset(part) && f in multiset(funds);
    }
  }

  lemma TwiceCounted(funds: seq<Funds>, i: nat, j: nat)
    requires i < j < |funds| && funds[i] == funds[j]
    ensures multiset(funds)[funds[i]] >= 2
  {
    assert funds == funds[..i] + [funds[i]] + funds[i + 1..j] + [funds[j]] + funds[j + 1..];
  }

  predicate NoRepeats(outpoints: seq<OutPoint>) {
    forall i, j | 0 <= i < j < |outpoints| :: outpoints[i] != outpoints[j]
  }

  lemma DistinctOutpoints(funds: seq<Funds>)
    requires Distinct(funds)
    ensures NoRepeats(Outpoints(funds))
  {
    forall i, j | 0 <= i < j < |funds|
      ensures funds[i].outpoint != funds[j].outpoint
    {
      if funds[i] == funds[j] {
        TwiceCounted(funds, i, j);
      }
    }
  }

  /** No coin is promised twice, neither to two channels nor to one. */
  ghost predicate Exclusive(table: Table) {
    WellFormed(table) && forall x | x in table :: NoRepeats(table[x].prevOutpoints)
  }

  ghost predicate Honest(w: Wallet, a: Answers) {
    a.normal.Some? && a.change.Some? ==> Distinct(Listed(w, a))
  }

  lemma StepExclusive(w: Wallet, r: Request, a: Answers)
    requires Exclusive(w.data.pending) && Honest(w, a)
    ensures Exclusive(Constructed(w, r, a).data.pending)
  {
    ReservationsStayDisjoint(w, r, a);
    if Answer(w, r, a).Built? {
      SelectionIsFromFunds(Listed(w, a), Target(r.amount, RateFor(w, r)));
      DistinctPart(Inputs(w, r, a), Listed(w, a));
      DistinctOutpoints(Inputs(w, r, a));
    }
  }

  /** A request for funding, or a listing of funds asked for by a client. */
  datatype Call = Construct(request: Request, answers: Answers) | List(answers: Answers)

  function AfterCall(w: Wallet, call: Call): Wallet {
    match call
    case Construct(r, a) => Constructed(w, r, a)
    case List(a) => AfterListing(w, a)
  }

  /** The transaction a call yields, if it yields one. */
  function Yield(w: Wallet, call: Call): Option<Psbt> {
    if call.Construct? then
      var answer := Answer(w, call.request, call.answers);
      if answer.Built? then Some(answer.psbt) else None
    else None
  }

  function Run(w: Wallet, calls: seq<Call>): Wallet
    decreases |calls|
  {
    if calls == [] then w else Run(AfterCall(w, calls[0]), calls[1..])
  }

  ghost predicate HonestRun(w: Wallet, calls: seq<Call>)
    decreases |calls|
  {
    calls == [] || (Honest(w, calls[0].answers)
                    && HonestRun(AfterCall(w, calls[0]), calls[1..]))
  }

  /** No double reservation over any run of constructions, with new resolver answers each time. */
  lemma {:induction false} NoDoubleReservation(w: Wallet, calls: seq<Call>)
    requires Exclusive(w.data.pending) && HonestRun(w, calls)
    ensures Exclusive(Run(w, calls).data.pending)
    decreases |calls|
  {
    if calls != [] {
      if calls[0].Construct? {
        StepExclusive(w, calls[0].request, calls[0].answers);
      }
      NoDoubleReservation(AfterCall(w, calls[0]), calls[1..]);
    }
  }

  /** What lnpd is promised about a funding: it spends unreserved coins (some, unless nothing was
      asked for), pays the channel with its first output and is reserved under its id; its fee
      is exact and its inputs pay for amount and fee. */
  lemma FundingIsAcceptable(w: Wallet, r: Request, a: Answers)
    requires Answer(w, r, a).Built? && CollisionFree(w.data.pending, Answer(w, r, a).psbt)
    ensures
      var psbt := Answer(w, r, a).psbt;
      var rate := RateFor(w, r);
      && (Target(r.amount, rate) > 0 ==> Ledger.Acceptable(w.data.pending, psbt))
      && (Target(r.amount, rate) == 0 ==> psbt.inputs == [])
      && Constructed(w, r, a).data.pending == Reserve(w.data.pending, r.temp, psbt)
      && psbt.fee == (a.weight(psbt.fee) + a.satisfaction * |psbt.inputs|) * rate / 1000
      && r.amount + psbt.fee <= Total(Inputs(w, r, a))
  {
    SelectedInputsFree(w, r, a);
    SettledIsExact(JobFor(w, r, a), 0, Bound(JobFor(w, r, a)));
    assert Total([]) == 0;
  }

  /** If the server cannot be reached, for either branch, nothing at all changes; if funds are short,
      nothing is reserved and no change index handed out, but the listing counts. */
  lemma RefusalsReserveNothing(w: Wallet, r: Request, a: Answers)
    ensures Answer(w, r, a).Electrum? <==> !Lists(a)
    ensures !Lists(a) ==> Constructed(w, r, a) == w && AfterListing(w, a) == w
    ensures Answer(w, r, a).InsufficientFunds? ==> Constructed(w, r, a) == AfterListing(w, a)
    ensures !Answer(w, r, a).Built? ==> Constructed(w, r, a).data.pending == w.data.pending
  {
  }

  /** The coins a funding spends: those of `cs`, in order. */
  predicate Spends(psbt: Psbt, cs: seq<Funds>) {
    |psbt.inputs| == |cs| && forall i | 0 <= i < |cs| :: psbt.inputs[i] == cs[i].outpoint
  }

  lemma SelectionIsFewest(w: Wallet, r: Request, a: Answers)
    requires Lists(a) && Suffices(w, r, a)
    requires Total(Listed(w, a)) < TWO_64 && r.amount + 2 * RateFor(w, r) < TWO_64
    ensures Fewest(Inputs(w, r, a), Listed(w, a), r.amount + 2 * RateFor(w, r))
  {
    var target := Target(r.amount, RateFor(w, r));
    assert target == r.amount + 2 * RateFor(w, r);
    SelectedIsFewest(Listed(w, a), target);
  }

  /** The coins behind a funding: listed, worth amount and fee, and, if no sum overflows, as few as
      can be worth amount and first estimate. */
  lemma FundingSpendsSelection(w: Wallet, r: Request, a: Answers) returns (cs: seq<Funds>)
    requires Answer(w, r, a).Built?
    ensures
      var psbt := Answer(w, r, a).psbt;
      var rate := if r.feerate.Some? then r.feerate.value else w.feerate;
      && Lists(a) && Spends(psbt, cs)
      && multiset(cs) <= multiset(Listed(w, a)) && Total(cs) >= r.amount + psbt.fee
      && (Total(Listed(w, a)) < TWO_64 && r.amount + 2 * rate < TWO_64 ==> Fewest(cs, Listed(w, a), r.amount + 2 * rate))
  {
    cs := Inputs(w, r, a);
    SettledIsExact(JobFor(w, r, a), 0, Bound(JobFor(w, r, a)));
    SelectionIsFromFunds(Listed(w, a), Target(r.amount, RateFor(w, r)));
    if Total(Listed(w, a)) < TWO_64 && r.amount + 2 * RateFor(w, r) < TWO_64 {
      SelectionIsFewest(w, r, a);
    }
  }

  /** The rest of a funding: its fee is exact, its id is that of the transaction built with that
      fee, it pays the channel with its first output, and the table holds it, for the channel it
      was asked for, with what it spends. */
  lemma FundingIsReserved(w: Wallet, r: Request, a: Answers)
    requires Answer(w, r, a).Built?
    ensures
      var psbt := Answer(w, r, a).psbt;
      var rate := if r.feerate.Some? then r.feerate.value else w.feerate;
      var table := Constructed(w, r, a).data.pending;
      && psbt.fee == (a.weight(psbt.fee) + a.satisfaction * |psbt.inputs|) * rate / 1000
      && psbt.txid == a.txid(psbt.fee) && psbt.vout == FIRST_OUTPUT && !psbt.signed
      && psbt.txid in table && table[psbt.txid].temp == r.temp && table[psbt.txid].psbt == psbt
      && table[psbt.txid].prevOutpoints == psbt.inputs
      && (forall x | x in w.data.pending && x != psbt.txid :: x in table && table[x] == w.data.pending[x])
      && (forall x | x in table && x != psbt.txid :: x in w.data.pending)
  {
    SettledIsExact(JobFor(w, r, a), 0, Bound(JobFor(w, r, a)));
  }

  /** A request for nothing at no fee is met with a transaction that spends nothing. */
  lemma NothingIsSpent(w: Wallet, r: Request, a: Answers)
    requires Answer(w, r, a).Built? && Target(r.amount, RateFor(w, r)) == 0
    ensures Answer(w, r, a).psbt.inputs == []
  {
  }

  /** The wallet under lnpd: a launcher that asks for funding gets one, moves to its permanent
      id without displacing another, and lnpd's and the wallet's reservations stay the same. */
  lemma WalletServesLauncher(s: Lnpd.State, w: Wallet, r: Request, a: Answers, client: ClientId, fund: FundChannel, ok: bool)
    requires Ledger.Inv(s) && s.pending == w.data.pending
    requires Channel(r.temp) in s.creating && s.creating[Channel(r.temp)] == Launch.Negotiating(r.temp, client)
    requires Answer(w, r, a).Built? && CollisionFree(w.data.pending, Answer(w, r, a).psbt)
    requires Target(r.amount, RateFor(w, r)) > 0
    requires
      var key := Channel(ChannelIdWith(Answer(w, r, a).psbt.txid, FIRST_OUTPUT));
      key in s.creating ==> s.creating[key].Committing?
    ensures
      var psbt := Answer(w, r, a).psbt;
      var id := ChannelIdWith(psbt.txid, FIRST_OUTPUT);
      var e := Lnpd.Control(Channel(r.temp), ConstructFunding(fund), Launch.Backend(Launch.Funded(psbt), ok));
      var s' := Lnpd.Step(s, e).state;
      && Ledger.Fresh(s, e) && Ledger.Inv(s')
      && s'.pending == Constructed(w, r, a).data.pending
      && Channel(id) !in s.creating
      && s'.creating == (s.creating - {Channel(r.temp)})[Channel(id) := Launch.Committing(id, psbt.txid, client)]
  {
    var psbt := Answer(w, r, a).psbt;
    var backend := Launch.Backend(Launch.Funded(psbt), ok);
    FundingIsAcceptable(w, r, a);
    Ledger.PermanentIdUnused(s, psbt);
    LnpdSteps.FundingInNegotiating(s, r.temp, client, fund, backend);
    Ledger.StepConserves(s, Lnpd.Control(Channel(r.temp), ConstructFunding(fund), backend));
  }

  /** Funds below 2^64 in all, a target that does not wrap and a transaction of at most two
      kilo-weight units: the wallet refuses exactly if the funds are short, and panics only if the
      builder fails although the inputs cover the fee. */
  lemma LightFundingNeverBreaks(w: Wallet, r: Request, a: Answers)
    requires Lists(a) && Total(Listed(w, a)) < TWO_64
    requires r.amount + 2 * RateFor(w, r) < TWO_64
    requires forall fee :: a.weight(fee) + a.satisfaction * |Inputs(w, r, a)| <= 2000
    ensures Answer(w, r, a).Broken? ==> exists fee: nat :: fee <= 2 * RateFor(w, r) && !a.builds(fee)
    ensures Answer(w, r, a).InsufficientFunds? <==> Total(Listed(w, a)) < r.amount + 2 * RateFor(w, r)
  {
    var job := JobFor(w, r, a);
    RefusesWrapped(Listed(w, a), Target(r.amount, RateFor(w, r)));
    if !Answer(w, r, a).InsufficientFunds? {
      assert forall fee :: FullWeight(job, fee) <= 2000;
      LightNeverOverspends(job, 0, Bound(job));
    }
  }

  /** The coins selected reach the target, in 64 bits. */
  predicate Suffices(w: Wallet, r: Request, a: Answers)
    requires Lists(a)
  {
    SumU64(Inputs(w, r, a)) >= Target(r.amount, RateFor(w, r))
  }

  /** Without overflow: the funds listed are worth amount and first estimate. */
  lemma SufficesExactlyWhen(w: Wallet, r: Request, a: Answers)
    requires Lists(a) && Total(Listed(w, a)) < TWO_64 && r.amount + 2 * RateFor(w, r) < TWO_64
    ensures Suffices(w, r, a) <==> Total(Listed(w, a)) >= r.amount + 2 * RateFor(w, r)
    ensures Suffices(w, r, a) ==> Covered(JobFor(w, r, a), 2 * RateFor(w, r))
  {
    RefusesWrapped(Listed(w, a), Target(r.amount, RateFor(w, r)));
  }

  /** A transaction of steady weight breaks the wallet exactly when the coins selected reach the
      target but the construction with the first estimate or with the fee for that weight fails.
      Without overflow: the funds are worth amount and first estimate, and the inputs are worth
      less than amount and fee, or the builder fails for another reason. */
  lemma BreaksExactlyWhen(w: Wallet, r: Request, a: Answers, weight: nat)
    requires Lists(a) && forall fee :: a.weight(fee) == weight
    ensures
      var job, first := JobFor(w, r, a), 2 * RateFor(w, r);
      var fee := FullFee(job, weight);
      && !Answer(w, r, a).Looping?
      && (Answer(w, r, a).Broken? <==> Suffices(w, r, a) && (!Constructs(job, first) || !Constructs(job, fee)))
      && (Total(Listed(w, a)) < TWO_64 && r.amount + first < TWO_64 ==>
            (Answer(w, r, a).Broken? <==>
               Total(Listed(w, a)) >= r.amount + first
               && (r.amount + fee > job.total || !a.builds(first) || !a.builds(fee))))
  {
    SteadyWeightSettles(JobFor(w, r, a), weight);
    if Total(Listed(w, a)) < TWO_64 && r.amount + 2 * RateFor(w, r) < TWO_64 {
      SufficesExactlyWhen(w, r, a);
    }
  }

  /** With a builder that leaves out empty change the call never returns exactly if the coins
      selected reach the target, the builder does not fail, and nothing is left for a change
      output that has to be paid for. */
  lemma HangsExactlyWhen(w: Wallet, r: Request, a: Answers, light: nat, heavy: nat)
    requires Lists(a) && DropsChange(JobFor(w, r, a), light, heavy)
    ensures
      var job, first := JobFor(w, r, a), 2 * RateFor(w, r);
      && (Answer(w, r, a).Looping? <==> Suffices(w, r, a) && Wavers(job, light, heavy))
      && (Total(Listed(w, a)) < TWO_64 && r.amount + first < TWO_64 ==>
            (Answer(w, r, a).Looping? <==>
               Total(Listed(w, a)) >= r.amount + first && Wavers(job, light, heavy)))
  {
    SpinsExactlyWhenWavering(JobFor(w, r, a), light, heavy);
    if Total(Listed(w, a)) < TWO_64 && r.amount + 2 * RateFor(w, r) < TWO_64 {
      SufficesExactlyWhen(w, r, a);
    }
  }

  lemma OneCoinListed(w: Wallet, coin: Utxo, a: Answers)
    requires a.normal == Some([Slot(0, [coin])]) && a.change == Some([]) && coin.outpoint !in Reserved(w.data.pending)
    ensures Listed(w, a) == [Funds(coin.outpoint, false, 0, coin.amount)]
  {
    var reserved := Reserved(w.data.pending);
    assert [coin][1..] == [];
    assert Free([coin], reserved) == [coin];
    assert FundsIn([Slot(0, [coin])][..0], false, reserved) == [];
    assert AsFunds([coin], false, 0) == [Funds(coin.outpoint, false, 0, coin.amount)];
  }

  lemma OneCoinSelected(f: Funds, target: U64)
    requires 0 < target <= f.amount
    ensures Selected([f], target) == [f] && Total([f]) == f.amount
  {
    assert [f][1..] == [];
    SelectionStops([f], target);
    assert Total([]) == 0;
    LargestFirstDescends([f]);
    assert |LargestFirst([f])| == |multiset(LargestFirst([f]))| == 1;
    assert LargestFirst([f])[0] in multiset([f]);
  }

  /** A wallet with one coin of 102500, asked for a channel of 100000 at a rate of 1000. */
  lemma WalletCanHang(w: Wallet, temp: Slice32, coin: Utxo, txid: nat -> Slice32)
    requires coin.amount == 102500 && coin.outpoint !in Reserved(w.data.pending)
    ensures
      var a := Answers(Some([Slot(0, [coin])]), Some([]), fee => if 100000 + fee == 102500 then 2300 else 2500,
                       _ => true, txid, 0);
      Answer(w, Request(temp, 100000, Some(1000)), a).Looping?
  {
    var a := Answers(Some([Slot(0, [coin])]), Some([]), fee => if 100000 + fee == 102500 then 2300 else 2500,
                     _ => true, txid, 0);
    var r := Request(temp, 100000, Some(1000));
    OneCoinListed(w, coin, a);
    OneCoinSelected(Funds(coin.outpoint, false, 0, coin.amount), Target(r.amount, 1000));
    HangsExactlyWhen(w, r, a, 2300, 2500);
  }

  // ---------- Finding fundings ----------

  /** Fundings of the run ask for something and are told apart by their txids. */
  ghost predicate TellApart(w: Wallet, calls: seq<Call>)
    decreases |calls|
  {
    calls == [] || (TellsApart(w, calls[0]) && TellApart(AfterCall(w, calls[0]), calls[1..]))
  }

  ghost predicate TellsApart(w: Wallet, call: Call) {
    Yield(w, call).Some? ==>
      CollisionFree(w.data.pending, Yield(w, call).value) && Target(call.request.amount, RateFor(w, call.request)) > 0
  }

  lemma CallKeepsFundings(w: Wallet, call: Call, txid: Slice32)
    requires txid in w.data.pending && TellsApart(w, call)
    ensures var w' := AfterCall(w, call); txid in w'.data.pending && w'.data.pending[txid] == w.data.pending[txid]
  {
    if Yield(w, call).Some? {
      FundingIsAcceptable(w, call.request, call.answers);
      FreshTxid(w.data.pending, Yield(w, call).value);
    }
  }

  lemma {:induction false} FundingsStay(w: Wallet, calls: seq<Call>, txid: Slice32)
    requires txid in w.data.pending && TellApart(w, calls)
    ensures var w' := Run(w, calls); txid in w'.data.pending && w'.data.pending[txid] == w.data.pending[txid]
    decreases |calls|
  {
    if calls != [] {
      CallKeepsFundings(w, calls[0], txid);
      FundingsStay(AfterCall(w, calls[0]), calls[1..], txid);
    }
  }

  /** A funding that was built is found under its id after any further calls. */
  lemma BuiltStaysFound(w: Wallet, r: Request, a: Answers, calls: seq<Call>)
    requires Answer(w, r, a).Built? && TellApart(Constructed(w, r, a), calls)
    ensures
      var psbt, w' := Answer(w, r, a).psbt, Run(Constructed(w, r, a), calls);
      psbt.txid in w'.data.pending && w'.data.pending[psbt.txid].psbt == psbt && w'.data.pending[psbt.txid].temp == r.temp
  {
    FundingsStay(Constructed(w, r, a), calls, Answer(w, r, a).psbt.txid);
  }

  // ---------- Derivation indexes ----------

  predicate Holds(slot: Slot, reserved: set<OutPoint>) { Free(slot.utxos, reserved) != [] }

  /** No address near the end of the branch holds coins. */
  predicate Roomy(scan: Scan, last: Index, reserved: set<OutPoint>) {
    last < LAST_INDEX && forall slot | slot in scan && Holds(slot, reserved) :: slot.index + 1 < LAST_INDEX
  }

  /** Listing moves the index past every address that holds coins, and no further. */
  lemma {:induction false} IndexPassesCoins(scan: Scan, last: Index, reserved: set<OutPoint>)
    requires Roomy(scan, last, reserved)
    ensures
      var next := IndexAfter(scan, last, reserved);
      && last <= next < LAST_INDEX
      && (forall slot | slot in scan && Holds(slot, reserved) :: slot.index < next)
      && (next == last || exists slot :: slot in scan && Holds(slot, reserved) && next == slot.index + 1)
    decreases |scan|
  {
    if scan != [] {
      IndexPassesCoins(scan[..|scan| - 1], last, reserved);
      assert scan == scan[..|scan| - 1] + [scan[|scan| - 1]];
    }
  }

  /** After a listing both branches go on past every address with unreserved coins, and that is
      what is on disk; so the next funding address was not used, as far as the server knows. */
  lemma ListingPassesCoins(w: Wallet, a: Answers)
    requires Lists(a) && Roomy(a.normal.value, w.data.lastNormal, Reserved(w.data.pending))
    requires Roomy(a.change.value, w.data.lastChange, Reserved(w.data.pending))
    ensures
      var w' := AfterListing(w, a);
      && w.data.lastNormal <= w'.data.lastNormal && w.data.lastChange <= w'.data.lastChange
      && (forall f | f in Listed(w, a) :: f.index < if f.change then w'.data.lastChange else w'.data.lastNormal)
      && w'.disk == w'.data && w'.data.pending == w.data.pending
  {
    var reserved, w' := Reserved(w.data.pending), AfterListing(w, a);
    IndexPassesCoins(a.normal.value, w.data.lastNormal, reserved);
    IndexPassesCoins(a.change.value, w.data.lastChange, reserved);
    forall f | f in Listed(w, a)
      ensures f.index < if f.change then w'.data.lastChange else w'.data.lastNormal
    {
      ListedExactlyWhen(w, a, f);
      var scan := if f.change then a.change.value else a.normal.value;
      var slot :| slot in scan && slot.index == f.index && Utxo(f.outpoint, f.amount) in slot.utxos;
      FreeIsFree(slot.utxos, reserved);
      assert f.outpoint !in reserved;
      assert Holds(slot, reserved);
    }
  }

  ghost predicate RoomyCall(w: Wallet, a: Answers) {
    a.change.Some? ==> Roomy(a.change.value, w.data.lastChange, Reserved(w.data.pending))
  }

  /** A funding gets a change index never handed out before and beyond every change address
      that holds unreserved coins. */
  lemma ChangeIndexIsFresh(w: Wallet, r: Request, a: Answers)
    requires RoomyCall(w, a)
    ensures w.data.lastChange <= Constructed(w, r, a).data.lastChange
    ensures
      var answer := Answer(w, r, a);
      answer.Built? ==>
        && w.data.lastChange <= answer.psbt.changeIndex < Constructed(w, r, a).data.lastChange
        && forall slot | slot in a.change.value && Holds(slot, Reserved(w.data.pending)) ::
             slot.index < answer.psbt.changeIndex
  {
    if a.normal.Some? && a.change.Some? {
      IndexPassesCoins(a.change.value, w.data.lastChange, Reserved(w.data.pending));
    }
  }

  lemma CallRaisesIndex(w: Wallet, call: Call)
    requires RoomyCall(w, call.answers)
    ensures w.data.lastChange <= AfterCall(w, call).data.lastChange
    ensures Yield(w, call).Some? ==> w.data.lastChange <= Yield(w, call).value.changeIndex < AfterCall(w, call).data.lastChange
  {
    match call
    case Construct(r, a) =>
      ChangeIndexIsFresh(w, r, a);
    case List(a) =>
      if Lists(a) {
        IndexPassesCoins(a.change.value, w.data.lastChange, Reserved(w.data.pending));
      }
  }

  /** Change indexes of the fundings built in a run, in order. */
  function ChangeIndexes(w: Wallet, calls: seq<Call>): seq<nat>
    decreases |calls|
  {
    if calls == [] then []
    else
      var psbt := Yield(w, calls[0]);
      (if psbt.Some? then [psbt.value.changeIndex] else [])
      + ChangeIndexes(AfterCall(w, calls[0]), calls[1..])
  }

  ghost predicate RoomyRun(w: Wallet, calls: seq<Call>)
    decreases |calls|
  {
    calls == [] || (RoomyCall(w, calls[0].answers)
                    && RoomyRun(AfterCall(w, calls[0]), calls[1..]))
  }

  /** Strictly increasing numbers, none below `from`. */
  predicate Rising(xs: seq<nat>, from: nat) {
    (forall x | x in xs :: from <= x) && forall i, j | 0 <= i < j < |xs| :: xs[i] < xs[j]
  }

  lemma RisingCons(x: nat, xs: seq<nat>, from: nat, next: nat)
    requires from <= x < next && Rising(xs, next)
    ensures Rising([x] + xs, from)
  {
    var all := [x] + xs;
    forall i, j | 0 <= i < j < |all|
      ensures all[i] < all[j]
    {
      assert all[j] == xs[j - 1] && xs[j - 1] in xs;
      assert i > 0 ==> all[i] == xs[i - 1];
    }
  }

  /** Until the index wraps, successive fundings have strictly increasing change indexes. */
  lemma {:induction false} ChangeIndexesIncrease(w: Wallet, calls: seq<Call>)
    requires RoomyRun(w, calls)
    ensures Rising(ChangeIndexes(w, calls), w.data.lastChange)
    decreases |calls|
  {
    if calls != [] {
      var w' := AfterCall(w, calls[0]);
      CallRaisesIndex(w, calls[0]);
      ChangeIndexesIncrease(w', calls[1..]);
      var rest := ChangeIndexes(w', calls[1..]);
      var psbt := Yield(w, calls[0]);
      if psbt.Some? {
        RisingCons(psbt.value.changeIndex, rest, w.data.lastChange, w'.data.lastChange);
      } else {
        assert ChangeIndexes(w, calls) == rest;
      }
    }
  }

  /** The next index is higher exactly until the last one is handed out; then it starts over. */
  lemma NextIndexIsHigher(w: Wallet, r: Request, a: Answers)
    requires Answer(w, r, a).Built?
    ensures
      var issued, next := Answer(w, r, a).psbt.changeIndex, Constructed(w, r, a).data.lastChange;
      (issued < next <==> issued != LAST_INDEX) && (issued == LAST_INDEX ==> next == 0)
  {
  }

  // ---------- Restarts ----------

  lemma {:induction false} IndexSettled(scan: Scan, last: Index, reserved: set<OutPoint>)
    requires forall slot | slot in scan && Holds(slot, reserved) :: slot.index < last
    ensures IndexAfter(scan, last, reserved) == last
    decreases |scan|
  {
    if scan != [] {
      assert forall slot | slot in scan[..|scan| - 1] :: slot in scan;
      IndexSettled(scan[..|scan| - 1], last, reserved);
    }
  }

  /** A reservation does not survive a restart right after it: the reopened wallet, asked the
      same, gives the same coins and the same change index again. */
  lemma RestartForgets(w: Wallet, r: Request, a: Answers)
    requires Answer(w, r, a).Built? && RoomyCall(w, a)
    requires Roomy(a.normal.value, w.data.lastNormal, Reserved(w.data.pending))
    ensures
      var again := Reopened(Constructed(w, r, a));
      && again.data.pending == w.data.pending && again.data.lastChange == Answer(w, r, a).psbt.changeIndex
      && Answer(again, r, a) == Answer(w, r, a)
  {
    var reserved := Reserved(w.data.pending);
    var again := Reopened(Constructed(w, r, a));
    IndexPassesCoins(a.change.value, w.data.lastChange, reserved);
    IndexSettled(a.change.value, again.data.lastChange, reserved);
  }

  lemma ListingSaves(w: Wallet, call: Call, txid: Slice32)
    requires txid in w.data.pending
    ensures txid in AfterCall(w, call).data.pending
    ensures txid in AfterCall(w, call).disk.pending <==> txid in w.disk.pending || Lists(call.answers)
  {
  }

  /** A reservation not on disk gets there exactly by a later listing of funds. */
  lemma {:induction false} SavedExactlyByListing(w: Wallet, calls: seq<Call>, txid: Slice32)
    requires txid in w.data.pending
    ensures txid in Run(w, calls).data.pending
    ensures txid in Run(w, calls).disk.pending <==>
            txid in w.disk.pending || exists i :: 0 <= i < |calls| && Lists(calls[i].answers)
    decreases |calls|
  {
    if calls != [] {
      var w' := AfterCall(w, calls[0]);
      ListingSaves(w, calls[0], txid);
      SavedExactlyByListing(w', calls[1..], txid);
      forall i | 0 <= i < |calls[1..]|
        ensures calls[1..][i] == calls[i + 1]
      {
      }
      if exists i :: 0 <= i < |calls| && Lists(calls[i].answers) {
        var i :| 0 <= i < |calls| && Lists(calls[i].answers);
        assert i > 0 ==> Lists(calls[1..][i - 1].answers);
      }
    }
  }
}
