/** The transaction watcher: a main thread with a list of tracked transactions, a worker thread
    with its own list, a forwarder, and the FIFO channels between them. */
module Watchd {
  import opened Types

  // ---------- Worker ----------

  datatype Cmd = Reconnect | PopHeader | GetTransactions | TrackTransaction(txid: Slice32) | UntrackTransaction(txid: Slice32)

  /** Updates of the worker: a batch of transactions known to the network, or something the
      forwarder ignores. */
  datatype Update = TxBatch(txids: seq<Slice32>) | Ignored

  /** What a command makes of the worker: its list, the update it sends, whether it panics. */
  datatype Work = Work(tracks: seq<Slice32>, update: Option<Update>, panics: bool)

  function RemoveFirst(xs: seq<Slice32>, x: Slice32): seq<Slice32> {
    if xs == [] then [] else if xs[0] == x then xs[1..] else [xs[0]] + RemoveFirst(xs[1..], x)
  }

  lemma {:induction false} RemoveFirstOnce(xs: seq<Slice32>, x: Slice32)
    ensures multiset(RemoveFirst(xs, x)) == multiset(xs) - multiset{x}
    decreases |xs|
  {
    if xs != [] {
      assert xs == [xs[0]] + xs[1..];
      RemoveFirstOnce(xs[1..], x);
    }
  }

  /** A reply of the Electrum server: the transactions it returned, or an error. Nothing is
      assumed about which transactions it returns. When a header is asked for, an empty reply
      means that there is no new one. */
  type Reply = Option<seq<Slice32>>

  function Answered(reply: Reply): Option<Update> {
    Some(if reply.Some? then TxBatch(reply.value) else Ignored)
  }

  /** One command. */
  function Process(tracks: seq<Slice32>, cmd: Cmd, reply: Reply): Work {
    match cmd
    case Reconnect => Work(tracks, if reply.Some? then None else Some(Ignored), false)
    case PopHeader => Work(tracks, if reply == Some([]) then None else Some(Ignored), false)
    case GetTransactions =>
      if tracks == [] then Work(tracks, None, false) else Work(tracks, Answered(reply), false)
    case TrackTransaction(x) => Work(tracks + [x], Answered(reply), false)
    case UntrackTransaction(x) =>
      if x in tracks then Work(RemoveFirst(tracks, x), Answered(reply), false)
      else Work(tracks, None, true)
  }

  lemma {:induction false} RemoveFirstAt(xs: seq<Slice32>, x: Slice32, i: nat)
    requires i < |xs| && xs[i] == x && forall j | 0 <= j < i :: xs[j] != x
    ensures RemoveFirst(xs, x) == xs[..i] + xs[i + 1..]
    decreases |xs|
  {
    if i > 0 {
      RemoveFirstAt(xs[1..], x, i - 1);
    }
  }

  class ElectrumProcessor {
    var tracks: seq<Slice32>

    constructor ()
      ensures tracks == []
    {
      tracks := [];
    }

    method UntrackTransaction(txid: Slice32) returns (panics: bool)
      modifies this
      ensures panics <==> txid !in old(tracks)
      ensures tracks == if panics then old(tracks) else RemoveFirst(old(tracks), txid)
      ensures multiset(tracks) == multiset(old(tracks)) - multiset{txid}
    {
      RemoveFirstOnce(tracks, txid);
      var i := 0;
      while i < |tracks| && tracks[i] != txid
        invariant i <= |tracks| && forall j | 0 <= j < i :: tracks[j] != txid
      {
        i := i + 1;
      }
      panics := i == |tracks|;
      if !panics {
        RemoveFirstAt(tracks, txid, i);
        tracks := tracks[..i] + tracks[i + 1..];
      }
    }

    method ProcessOne(cmd: Cmd, reply: Reply) returns (update: Option<Update>, panics: bool)
      modifies this
      ensures Work(tracks, update, panics) == Process(old(tracks), cmd, reply)
      ensures
        var queries := (cmd.GetTransactions? && tracks != []) || cmd.TrackTransaction? || cmd.UntrackTransaction?;
        reply.Some? && !panics && queries ==> update == Some(TxBatch(reply.value))
    {
      update, panics := None, false;
      match cmd
      case Reconnect => update := if reply.Some? then None else Some(Ignored);
      case PopHeader => update := if reply == Some([]) then None else Some(Ignored);
      case GetTransactions =>
        if tracks != [] {
          update := Answered(reply);
        }
      case TrackTransaction(x) =>
        tracks := tracks + [x];
        update := Answered(reply);
      case UntrackTransaction(x) =>
        panics := UntrackTransaction(x);
        if !panics {
          update := Answered(reply);
        }
    }
  }

  // ---------- Main thread ----------

  type TrackList = map<Slice32, (nat, ServiceId)>

  /** What the main thread does on an event: its list, the command it sends the worker, the
      notification it sends. */
  datatype Reaction = Reaction(list: TrackList, cmd: Option<Cmd>, notify: Option<(Slice32, ServiceId)>)

  function OnTrack(list: TrackList, source: ServiceId, txid: Slice32, depth: nat): Reaction {
    Reaction(list[txid := (depth, source)], Some(TrackTransaction(txid)), None)
  }

  function OnUntrack(list: TrackList, txid: Slice32): Reaction {
    Reaction(list - {txid}, Some(UntrackTransaction(txid)), None)
  }

  /** The position of a found transaction is never known here and counts as zero. */
  function Position(blockPos: Option<nat>): nat { if blockPos.Some? then blockPos.value else 0 }

  function OnFound(list: TrackList, txid: Slice32, blockPos: Option<nat>): Reaction {
    if txid in list && list[txid].0 >= Position(blockPos) then
      Reaction(list - {txid}, Some(UntrackTransaction(txid)), Some((txid, list[txid].1)))
    else Reaction(list, None, None)
  }

  class Runtime {
    var trackList: TrackList

    constructor ()
      ensures trackList == map[]
    {
      trackList := map[];
    }

    method Untrack(txid: Slice32) returns (known: bool)
      modifies this
      ensures trackList == old(trackList) - {txid} && known == (txid in old(trackList))
    {
      known := txid in trackList;
      trackList := trackList - {txid};
    }

    method HandleTrack(source: ServiceId, txid: Slice32, depth: nat) returns (cmd: Cmd)
      modifies this
      ensures Reaction(trackList, Some(cmd), None) == OnTrack(old(trackList), source, txid, depth)
    {
      trackList := trackList[txid := (depth, source)];
      cmd := TrackTransaction(txid);
    }

    method HandleUntrack(txid: Slice32) returns (cmd: Cmd)
      modifies this
      ensures Reaction(trackList, Some(cmd), None) == OnUntrack(old(trackList), txid)
    {
      var _ := Untrack(txid);
      cmd := UntrackTransaction(txid);
    }

    method HandleBridge(txid: Slice32, blockPos: Option<nat>)
      returns (cmd: Option<Cmd>, notify: Option<(Slice32, ServiceId)>)
      modifies this
      ensures Reaction(trackList, cmd, notify) == OnFound(old(trackList), txid, blockPos)
    {
      cmd, notify := None, None;
      if txid in trackList {
        var (required, service) := trackList[txid];
        if required >= Position(blockPos) {
          var _ := Untrack(txid);
          cmd, notify := Some(UntrackTransaction(txid)), Some((txid, service));
        }
      }
    }
  }

  /** The forwarder turns one update into bridge messages. */
  function Forwarded(update: Update): seq<Slice32> {
    if update.TxBatch? then update.txids else []
  }

  method Forward(bridge: seq<Slice32>, update: Update) returns (bridge': seq<Slice32>)
    ensures bridge' == bridge + Forwarded(update)
  {
    bridge' := bridge;
    if update.TxBatch? {
      for i := 0 to |update.txids|
        invariant bridge' == bridge + update.txids[..i]
      {
        bridge' := bridge' + [update.txids[i]];
      }
      assert update.txids[..|update.txids|] == update.txids;
    }
  }

  // ---------- All threads together ----------

  /** The threads and channels of the daemon, and its history: requests to track and
      notifications sent, with the service concerned, and untrack commands by transaction. */
  datatype State = State(
    list: TrackList,
    cmds: seq<Cmd>,
    tracks: seq<Slice32>,
    updates: seq<Update>,
    bridge: seq<Slice32>,
    dead: bool,
    asked: multiset<(Slice32, ServiceId)>,
    sent: multiset<(Slice32, ServiceId)>,
    tracked: multiset<Slice32>,
    dropped: multiset<Slice32>)

  const Start := State(map[], [], [], [], [], false, multiset{}, multiset{}, multiset{}, multiset{})

  datatype Action =
    | Track(source: ServiceId, txid: Slice32, depth: nat)
    | Untrack(txid: Slice32)
    | Tick                    // the pacemaker asks for transactions and headers
    | Worker(reply: Reply)    // the worker takes a command
    | Forwarder               // the forwarder takes an update
    | Bridge                  // the main thread takes a found transaction

  predicate Enabled(s: State, a: Action) {
    match a
    case Worker(_) => s.cmds != [] && !s.dead
    case Forwarder => s.updates != []
    case Bridge => s.bridge != []
    case _ => true
  }

  /** The main thread's list, command and notification take effect. */
  function React(s: State, r: Reaction): State {
    var dropped := if r.cmd.Some? && r.cmd.value.UntrackTransaction? then multiset{r.cmd.value.txid} else multiset{};
    s.(list := r.list,
       cmds := if r.cmd.Some? then s.cmds + [r.cmd.value] else s.cmds,
       sent := if r.notify.Some? then s.sent + multiset{r.notify.value} else s.sent,
       dropped := s.dropped + dropped)
  }

  function Next(s: State, a: Action): State
    requires Enabled(s, a)
  {
    match a
    case Track(source, txid, depth) =>
      React(s, OnTrack(s.list, source, txid, depth)).(
        asked := s.asked + multiset{(txid, source)}, tracked := s.tracked + multiset{txid})
    case Untrack(txid) => React(s, OnUntrack(s.list, txid))
    case Tick => s.(cmds := s.cmds + [GetTransactions, PopHeader])
    case Worker(reply) =>
      var w := Process(s.tracks, s.cmds[0], reply);
      s.(cmds := s.cmds[1..], tracks := w.tracks, dead := w.panics,
         updates := if w.update.Some? then s.updates + [w.update.value] else s.updates)
    case Forwarder => s.(updates := s.updates[1..], bridge := s.bridge + Forwarded(s.updates[0]))
    case Bridge => React(s.(bridge := s.bridge[1..]), OnFound(s.list, s.bridge[0], None))
  }

  ghost predicate Valid(s: State, acts: seq<Action>)
    decreases |acts|
  {
    acts == [] || (Enabled(s, acts[0]) && Valid(Next(s, acts[0]), acts[1..]))
  }

  ghost function After(s: State, acts: seq<Action>): State
    requires Valid(s, acts)
    decreases |acts|
  {
    if acts == [] then s else After(Next(s, acts[0]), acts[1..])
  }

  // ---------- Commands yet to be processed ----------

  function NetOne(m: multiset<Slice32>, cmd: Cmd): multiset<Slice32> {
    match cmd
    case TrackTransaction(x) => m + multiset{x}
    case UntrackTransaction(x) => m - multiset{x}
    case _ => m
  }

  /** The worker's list after all queued commands. */
  function Net(m: multiset<Slice32>, cmds: seq<Cmd>): multiset<Slice32>
    decreases |cmds|
  {
    if cmds == [] then m else Net(NetOne(m, cmds[0]), cmds[1..])
  }

  predicate SafeOne(m: multiset<Slice32>, cmd: Cmd) { cmd.UntrackTransaction? ==> cmd.txid in m }

  /** Every queued untrack command will find its transaction. */
  predicate Safe(m: multiset<Slice32>, cmds: seq<Cmd>)
    decreases |cmds|
  {
    cmds == [] || (SafeOne(m, cmds[0]) && Safe(NetOne(m, cmds[0]), cmds[1..]))
  }

  lemma {:induction false} Append(m: multiset<Slice32>, cmds: seq<Cmd>, cmd: Cmd)
    ensures Net(m, cmds + [cmd]) == NetOne(Net(m, cmds), cmd)
    ensures Safe(m, cmds + [cmd]) <==> Safe(m, cmds) && SafeOne(Net(m, cmds), cmd)
    decreases |cmds|
  {
    if cmds == [] {
      assert cmds + [cmd] == [cmd] && [cmd][1..] == [];
    } else {
      assert (cmds + [cmd])[1..] == cmds[1..] + [cmd];
      Append(NetOne(m, cmds[0]), cmds[1..], cmd);
    }
  }

  lemma ProcessNets(tracks: seq<Slice32>, cmd: Cmd, reply: Reply)
    ensures
      var w := Process(tracks, cmd, reply);
      multiset(w.tracks) == NetOne(multiset(tracks), cmd) && (w.panics <==> !SafeOne(multiset(tracks), cmd))
  {
    if cmd.UntrackTransaction? {
      RemoveFirstOnce(tracks, cmd.txid);
    }
  }

  /** What the worker's list will be. */
  function Pending(s: State): multiset<Slice32> { Net(multiset(s.tracks), s.cmds) }

  /** The worker has panicked, or will once it gets to a queued command. */
  predicate Doomed(s: State) { s.dead || !Safe(multiset(s.tracks), s.cmds) }

  lemma AppendStep(s: State, s': State, cmd: Cmd)
    requires s'.tracks == s.tracks && s'.dead == s.dead && s'.cmds == s.cmds + [cmd]
    ensures Pending(s') == NetOne(Pending(s), cmd)
    ensures Doomed(s') <==> Doomed(s) || !SafeOne(Pending(s), cmd)
  {
    Append(multiset(s.tracks), s.cmds, cmd);
  }

  // ---------- The threads agree ----------

  /** Counts of the run: what the worker will hold is what was tracked and not untracked. */
  ghost predicate Balanced(s: State) {
    !Doomed(s) ==> s.dropped <= s.tracked && Pending(s) == s.tracked - s.dropped
  }

  /** Every transaction the main thread waits for will be in the worker's list. */
  ghost predicate Agree(s: State) {
    !Doomed(s) ==> forall x | x in s.list :: x in Pending(s)
  }

  /** A request to untrack is covered if the transaction was tracked more often than untracked. */
  predicate Covered(s: State, a: Action) {
    a.Untrack? ==> s.dropped[a.txid] < s.tracked[a.txid]
  }

  lemma TickKeeps(s: State)
    ensures
      var s' := Next(s, Tick);
      Pending(s') == Pending(s) && (Doomed(s') <==> Doomed(s))
  {
    var s1 := s.(cmds := s.cmds + [GetTransactions]);
    AppendStep(s, s1, GetTransactions);
    var s' := Next(s, Tick);
    assert s'.cmds == s1.cmds + [PopHeader];
    AppendStep(s1, s', PopHeader);
  }

  lemma WorkerKeeps(s: State, reply: Reply)
    requires Enabled(s, Worker(reply))
    ensures
      var s' := Next(s, Worker(reply));
      (Doomed(s') <==> Doomed(s)) && (!Doomed(s) ==> Pending(s') == Pending(s))
  {
    ProcessNets(s.tracks, s.cmds[0], reply);
  }

  lemma TrackAgrees(s: State, s': State, x: Slice32)
    requires Balanced(s) && Agree(s)
    requires s'.tracks == s.tracks && s'.dead == s.dead && s'.cmds == s.cmds + [TrackTransaction(x)]
    requires s'.list.Keys == s.list.Keys + {x} && s'.tracked == s.tracked + multiset{x} && s'.dropped == s.dropped
    ensures Balanced(s') && Agree(s') && (Doomed(s') <==> Doomed(s))
  {
    AppendStep(s, s', TrackTransaction(x));
    if !Doomed(s) {
      assert s.tracked + multiset{x} - s.dropped == s.tracked - s.dropped + multiset{x};
    }
  }

  lemma UntrackAgrees(s: State, s': State, x: Slice32)
    requires Balanced(s) && Agree(s)
    requires s'.tracks == s.tracks && s'.dead == s.dead && s'.cmds == s.cmds + [UntrackTransaction(x)]
    requires s'.list.Keys == s.list.Keys - {x} && s'.tracked == s.tracked && s'.dropped == s.dropped + multiset{x}
    ensures Balanced(s') && Agree(s')
    ensures Doomed(s') <==> Doomed(s) || s.tracked[x] <= s.dropped[x]
    ensures x in s.list && !Doomed(s) ==> !Doomed(s')
  {
    AppendStep(s, s', UntrackTransaction(x));
    if !Doomed(s) {
      assert Pending(s)[x] == s.tracked[x] - s.dropped[x];
      if !Doomed(s') {
        assert s.tracked - (s.dropped + multiset{x}) == s.tracked - s.dropped - multiset{x};
        forall y | y in s'.list
          ensures y in Pending(s')
        {
          assert y in s.list && y != x;
        }
      }
    }
  }

  lemma SameAgrees(s: State, s': State)
    requires Balanced(s) && Agree(s)
    requires (Doomed(s') <==> Doomed(s)) && (!Doomed(s) ==> Pending(s') == Pending(s))
    requires s'.list == s.list && s'.tracked == s.tracked && s'.dropped == s.dropped
    ensures Balanced(s') && Agree(s')
  {
  }

  /** One step keeps the threads in agreement, and only an uncovered request dooms the worker. */
  lemma StepAgrees(s: State, a: Action)
    requires Enabled(s, a) && Balanced(s) && Agree(s)
    ensures Balanced(Next(s, a)) && Agree(Next(s, a))
    ensures Doomed(Next(s, a)) <==> Doomed(s) || !Covered(s, a)
  {
    var s' := Next(s, a);
    match a
    case Track(_, x, _) =>
      TrackAgrees(s, s', x);
    case Untrack(x) =>
      UntrackAgrees(s, s', x);
    case Tick =>
      TickKeeps(s);
      SameAgrees(s, s');
    case Worker(reply) =>
      WorkerKeeps(s, reply);
      SameAgrees(s, s');
    case Forwarder =>
      SameAgrees(s, s');
    case Bridge =>
      if s.bridge[0] in s.list {
        UntrackAgrees(s, s', s.bridge[0]);
      } else {
        SameAgrees(s, s');
      }
  }

  ghost predicate CoveredRun(s: State, acts: seq<Action>)
    requires Valid(s, acts)
    decreases |acts|
  {
    acts == [] || (Covered(s, acts[0]) && CoveredRun(Next(s, acts[0]), acts[1..]))
  }

  lemma {:induction false} RunAgrees(s: State, acts: seq<Action>)
    requires Valid(s, acts) && Balanced(s) && Agree(s)
    ensures Balanced(After(s, acts)) && Agree(After(s, acts))
    ensures Doomed(After(s, acts)) <==> Doomed(s) || !CoveredRun(s, acts)
    decreases |acts|
  {
    if acts != [] {
      StepAgrees(s, acts[0]);
      RunAgrees(Next(s, acts[0]), acts[1..]);
    }
  }

  /** The worker's lookup fails, now or at a queued command, exactly if some request to untrack
      came when the transaction had been untracked as often as tracked. In every other run each
      transaction the main thread waits for is, or will be, in the worker's list. */
  lemma WorkerSafeExactlyWhenCovered(acts: seq<Action>)
    requires Valid(Start, acts)
    ensures
      var s := After(Start, acts);
      && (Doomed(s) <==> !CoveredRun(Start, acts))
      && (!Doomed(s) ==> forall x | x in s.list :: x in Pending(s))
  {
    assert Pending(Start) == multiset{};
    RunAgrees(Start, acts);
  }

  /** Requests to untrack only what the main thread still tracks. */
  ghost predicate Polite(s: State, acts: seq<Action>)
    requires Valid(s, acts)
    decreases |acts|
  {
    acts == [] || ((acts[0].Untrack? ==> acts[0].txid in s.list) && Polite(Next(s, acts[0]), acts[1..]))
  }

  lemma {:induction false} PoliteIsCovered(s: State, acts: seq<Action>)
    requires Valid(s, acts) && Polite(s, acts) && Balanced(s) && Agree(s) && !Doomed(s)
    ensures CoveredRun(s, acts)
    decreases |acts|
  {
    if acts != [] {
      if acts[0].Untrack? {
        assert acts[0].txid in Pending(s);
      }
      StepAgrees(s, acts[0]);
      PoliteIsCovered(Next(s, acts[0]), acts[1..]);
    }
  }

  /** If only tracked transactions are untracked on request, the worker never panics. */
  lemma PoliteRunsAreSafe(acts: seq<Action>)
    requires Valid(Start, acts) && Polite(Start, acts)
    ensures !Doomed(After(Start, acts)) && !After(Start, acts).dead
  {
    assert Pending(Start) == multiset{};
    PoliteIsCovered(Start, acts);
    RunAgrees(Start, acts);
  }

  /** Untracking what was never tracked stops the worker. */
  lemma UntrackUnknownPanics(txid: Slice32)
    ensures
      var acts := [Action.Untrack(txid), Worker(None)];
      Valid(Start, acts) && After(Start, acts).dead
  {
    var acts := [Action.Untrack(txid), Worker(None)];
    var s1 := Next(Start, acts[0]);
    assert s1.cmds == [UntrackTransaction(txid)];
    assert acts[1..] == [Worker(None)] && acts[1..][1..] == [];
    var s2 := Next(s1, acts[1]);
    assert s2.dead;
    assert Valid(s1, acts[1..]) && After(s1, acts[1..]) == s2;
  }

  // ---------- Notifications ----------

  /** A request is outstanding or has been answered, never both and never twice. */
  ghost predicate Accounted(s: State) {
    forall x, v :: s.sent[(x, v)] + (if x in s.list && s.list[x].1 == v then 1 else 0) <= s.asked[(x, v)]
  }

  lemma StepAccounts(s: State, a: Action)
    requires Enabled(s, a) && Accounted(s)
    ensures Accounted(Next(s, a))
  {
  }

  lemma {:induction false} RunAccounts(s: State, acts: seq<Action>)
    requires Valid(s, acts) && Accounted(s)
    ensures Accounted(After(s, acts))
    decreases |acts|
  {
    if acts != [] {
      StepAccounts(s, acts[0]);
      RunAccounts(Next(s, acts[0]), acts[1..]);
    }
  }

  /** At most one notification per request, to the service that made it, whatever the server
      returns and however often the worker repeats it. */
  lemma OneNotificationPerRequest(acts: seq<Action>)
    requires Valid(Start, acts)
    ensures After(Start, acts).sent <= After(Start, acts).asked
  {
    RunAccounts(Start, acts);
    var s := After(Start, acts);
    forall p: (Slice32, ServiceId)
      ensures s.sent[p] <= s.asked[p]
    {
      assert p == (p.0, p.1);
      assert s.sent[(p.0, p.1)] + (if p.0 in s.list && s.list[p.0].1 == p.1 then 1 else 0) <= s.asked[(p.0, p.1)];
    }
  }

  /** A tracked transaction is reported the first time it is seen, at whatever depth it was to
      be reported. */
  lemma DepthIsIgnored(list: TrackList, txid: Slice32)
    requires txid in list
    ensures OnFound(list, txid, None) ==
            Reaction(list - {txid}, Some(UntrackTransaction(txid)), Some((txid, list[txid].1)))
  {
  }

  // ---------- Found transactions are reported ----------

  /** A transaction is in a batch on its way to the forwarder. */
  ghost predicate Batched(s: State, x: Slice32) {
    exists k :: 0 <= k < |s.updates| && s.updates[k].TxBatch? && x in s.updates[k].txids
  }

  /** A worker that tracks anything reports what the server returns, periodically and on every
      request to track or untrack. */
  lemma WorkerReports(s: State, found: seq<Slice32>, x: Slice32)
    requires Enabled(s, Worker(Some(found))) && !Doomed(s) && x in found
    requires s.cmds[0].GetTransactions? ==> s.tracks != []
    requires s.cmds[0].GetTransactions? || s.cmds[0].TrackTransaction? || s.cmds[0].UntrackTransaction?
    ensures
      var s' := Next(s, Worker(Some(found)));
      s'.updates == s.updates + [TxBatch(found)] && Batched(s', x)
  {
    var s' := Next(s, Worker(Some(found)));
    assert s'.updates[|s.updates|] == TxBatch(found);
  }

  lemma {:induction false} NetOrigin(m: multiset<Slice32>, cmds: seq<Cmd>, x: Slice32)
    requires x in Net(m, cmds)
    ensures x in m || TrackTransaction(x) in cmds
    decreases |cmds|
  {
    if cmds != [] {
      NetOrigin(NetOne(m, cmds[0]), cmds[1..], x);
    }
  }

  /** What the main thread waits for the worker has in its list, or will be told to track; so the
      periodic query for a transaction it was told about yields a batch. */
  lemma PeriodicReport(s: State, found: seq<Slice32>, x: Slice32)
    requires Enabled(s, Worker(Some(found))) && Agree(s) && !Doomed(s) && x in s.list && x in found
    requires s.cmds[0].GetTransactions? && TrackTransaction(x) !in s.cmds
    ensures x in s.tracks && Batched(Next(s, Worker(Some(found))), x)
  {
    NetOrigin(multiset(s.tracks), s.cmds, x);
    assert x in s.tracks;
    WorkerReports(s, found, x);
  }

  /** The query is made exactly if the worker tracks something. If it does not, whatever the main
      thread waits for is still to be tracked, which makes the worker report in its turn. */
  lemma SilentOnlyWithoutTracks(s: State, found: seq<Slice32>)
    requires Enabled(s, Worker(Some(found))) && Agree(s) && !Doomed(s) && s.cmds[0].GetTransactions?
    ensures Next(s, Worker(Some(found))).updates == s.updates <==> s.tracks == []
    ensures s.tracks == [] ==> forall x | x in s.list :: TrackTransaction(x) in s.cmds
  {
    if s.tracks == [] {
      forall x | x in s.list
        ensures TrackTransaction(x) in s.cmds
      {
        NetOrigin(multiset(s.tracks), s.cmds, x);
      }
    } else {
      assert |Next(s, Worker(Some(found))).updates| == |s.updates| + 1;
    }
  }

  lemma {:induction false} Joined(s: State, acts: seq<Action>, more: seq<Action>)
    requires Valid(s, acts) && Valid(After(s, acts), more)
    ensures Valid(s, acts + more) && After(s, acts + more) == After(After(s, acts), more)
    decreases |acts|
  {
    if acts == [] {
      assert acts + more == more;
    } else {
      assert (acts + more)[1..] == acts[1..] + more;
      Joined(Next(s, acts[0]), acts[1..], more);
    }
  }

  lemma One(s: State, a: Action)
    requires Enabled(s, a)
    ensures Valid(s, [a]) && After(s, [a]) == Next(s, a)
  {
    assert [a][1..] == [];
    assert After(Next(s, a), [a][1..]) == Next(s, a);
  }

  /** Only the daemon's own threads act: no request comes in between. */
  predicate Inner(acts: seq<Action>) {
    forall a | a in acts :: !a.Track? && !a.Untrack?
  }

  /** The forwarder takes all updates. */
  lemma {:induction false} ForwardAll(s: State, x: Slice32) returns (acts: seq<Action>)
    requires Batched(s, x) || x in s.bridge
    ensures Inner(acts) && Valid(s, acts)
    ensures
      var s' := After(s, acts);
      x in s'.bridge && s'.list == s.list && s'.sent == s.sent
    decreases |s.updates|
  {
    if s.updates == [] {
      acts := [];
    } else {
      var s1 := Next(s, Forwarder);
      BatchMoves(s, x);
      var rest := ForwardAll(s1, x);
      One(s, Forwarder);
      Joined(s, [Forwarder], rest);
      acts := [Forwarder] + rest;
    }
  }

  lemma BatchMoves(s: State, x: Slice32)
    requires s.updates != [] && (Batched(s, x) || x in s.bridge)
    ensures var s' := Next(s, Forwarder); Batched(s', x) || x in s'.bridge
  {
    var s' := Next(s, Forwarder);
    if x !in s.bridge {
      var k :| 0 <= k < |s.updates| && s.updates[k].TxBatch? && x in s.updates[k].txids;
      if k > 0 {
        assert s'.updates[k - 1] == s.updates[k];
      }
    }
  }

  /** Notified once more, exactly: the service `v`, about `x`. */
  ghost predicate Notified(s: State, s': State, x: Slice32, v: ServiceId) {
    && x !in s'.list
    && forall u :: s'.sent[(x, u)] == s.sent[(x, u)] + if u == v then 1 else 0
  }

  /** The main thread takes bridge messages up to the first about `x`. */
  lemma {:induction false} BridgeAll(s: State, x: Slice32) returns (acts: seq<Action>)
    requires x in s.bridge && x in s.list
    ensures Inner(acts) && Valid(s, acts) && Notified(s, After(s, acts), x, s.list[x].1)
    decreases |s.bridge|
  {
    var s1 := Next(s, Bridge);
    One(s, Bridge);
    if s.bridge[0] == x {
      acts := [Bridge];
    } else {
      assert s1.bridge == s.bridge[1..] && x in s1.bridge;
      assert x in s1.list && s1.list[x] == s.list[x];
      OtherNotified(s, x);
      var rest := BridgeAll(s1, x);
      Joined(s, [Bridge], rest);
      acts := [Bridge] + rest;
    }
  }

  lemma OtherNotified(s: State, x: Slice32)
    requires s.bridge != [] && s.bridge[0] != x
    ensures forall u :: Next(s, Bridge).sent[(x, u)] == s.sent[(x, u)]
  {
  }

  /** A batch with a tracked transaction ends in a notification of the service that tracks it. */
  lemma BatchIsReported(s: State, x: Slice32) returns (acts: seq<Action>)
    requires Batched(s, x) && x in s.list
    ensures Inner(acts) && Valid(s, acts) && Notified(s, After(s, acts), x, s.list[x].1)
  {
    var first := ForwardAll(s, x);
    var s1 := After(s, first);
    var rest := BridgeAll(s1, x);
    Joined(s, first, rest);
    acts := first + rest;
  }

  /** The worker takes all commands that are queued. */
  lemma {:induction false} WorkAll(s: State) returns (acts: seq<Action>)
    requires !Doomed(s)
    ensures Inner(acts) && Valid(s, acts)
    ensures
      var s' := After(s, acts);
      s'.cmds == [] && !Doomed(s') && Pending(s') == Pending(s) && s'.list == s.list && s'.sent == s.sent
    decreases |s.cmds|
  {
    if s.cmds == [] {
      acts := [];
    } else {
      var s1 := Next(s, Worker(None));
      WorkerKeeps(s, None);
      var rest := WorkAll(s1);
      One(s, Worker(None));
      Joined(s, [Worker(None)], rest);
      acts := [Worker(None)] + rest;
    }
  }

  /** The pacemaker ticks and the server knows the transaction. */
  lemma TickFinds(s: State, x: Slice32) returns (acts: seq<Action>)
    requires s.cmds == [] && !Doomed(s) && x in Pending(s)
    ensures Inner(acts) && Valid(s, acts)
    ensures var s' := After(s, acts); Batched(s', x) && s'.list == s.list && s'.sent == s.sent
  {
    var s1 := Next(s, Tick);
    TickKeeps(s);
    assert s1.cmds == [GetTransactions, PopHeader];
    assert x in s1.tracks;
    WorkerReports(s1, [x], x);
    One(s, Tick);
    One(s1, Worker(Some([x])));
    Joined(s, [Tick], [Worker(Some([x]))]);
    acts := [Tick] + [Worker(Some([x]))];
  }

  /** Whatever state the threads are in, as long as the worker lives: a transaction that is tracked
      and known to the server can be reported by the threads' own steps, to the service that
      tracks it, once, and is then no longer tracked. */
  lemma TrackedIsReported(s: State, x: Slice32) returns (acts: seq<Action>)
    requires Agree(s) && !Doomed(s) && x in s.list
    ensures Inner(acts) && Valid(s, acts) && Notified(s, After(s, acts), x, s.list[x].1)
  {
    var first := WorkAll(s);
    var s1 := After(s, first);
    var second := TickFinds(s1, x);
    var s2 := After(s1, second);
    var third := BatchIsReported(s2, x);
    Joined(s1, second, third);
    Joined(s, first, second + third);
    acts := first + (second + third);
  }

  /** So a request to track, after any run that left the worker alive, can be answered. */
  lemma RequestIsAnswered(before: seq<Action>, source: ServiceId, x: Slice32, depth: nat) returns (acts: seq<Action>)
    requires Valid(Start, before) && CoveredRun(Start, before)
    ensures Inner(acts)
    ensures
      var s := After(Start, before);
      var s1 := Next(s, Action.Track(source, x, depth));
      Valid(s1, acts) && Notified(s, After(s1, acts), x, source)
  {
    assert Pending(Start) == multiset{};
    RunAgrees(Start, before);
    var s := After(Start, before);
    var s1 := Next(s, Action.Track(source, x, depth));
    StepAgrees(s, Action.Track(source, x, depth));
    assert s1.sent == s.sent && s1.list[x].1 == source;
    acts := TrackedIsReported(s1, x);
  }
}
