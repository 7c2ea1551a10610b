/** The watcher's threads do what the node expects of watchd: remember who tracks a transaction
    and tell it once. */
module WatchRefinement {
  import opened Types
  import Node
  import Watchd

  /** Who waits for which transaction. */
  function Tracked(s: Watchd.State): map<Slice32, ServiceId> {
    map x | x in s.list :: s.list[x].1
  }

  /** The node as it is after one step of the watcher's threads: a request is taken, a found
      transaction is reported to whoever tracks it, or nothing happens. */
  function Observed(n: Node.Node, s: Watchd.State, a: Watchd.Action): Node.Node
    requires Watchd.Enabled(s, a)
  {
    match a
    case Track(source, txid, depth) =>
      Node.WatchdTakes(n, Envelope(source, Watch, Ctl(Track(txid, depth)))).node
    case Untrack(txid) => Node.WatchdTakes(n, Envelope(LnpBroker, Watch, Ctl(Untrack(txid)))).node
    case Bridge => if s.bridge[0] in n.tracked then Node.WatchdFinds(n, s.bridge[0]) else n
    case _ => n
  }

  /** The notification posted on the way, if any, is the one the main thread sends. */
  ghost predicate Posts(n: Node.Node, n': Node.Node, s: Watchd.State, s': Watchd.State, told: Option<(Slice32, ServiceId)>) {
    match told
    case None => s'.sent == s.sent && n'.net == n.net
    case Some((x, v)) =>
      && s'.sent == s.sent + multiset{(x, v)}
      && n'.net == Node.Post(n, Node.Watchd, Envelope(Watch, v, Ctl(TxFound(x)))).net
  }

  function Told(s: Watchd.State, a: Watchd.Action): Option<(Slice32, ServiceId)>
    requires Watchd.Enabled(s, a)
  {
    if a.Bridge? && s.bridge[0] in s.list then Some((s.bridge[0], s.list[s.bridge[0]].1)) else None
  }

  lemma BridgeRefines(n: Node.Node, s: Watchd.State)
    requires s.bridge != [] && n.tracked == Tracked(s)
    ensures
      var s', n' := Watchd.Next(s, Watchd.Bridge), Observed(n, s, Watchd.Bridge);
      n'.tracked == Tracked(s') && Posts(n, n', s, s', Told(s, Watchd.Bridge))
  {
    var x := s.bridge[0];
    if x in s.list {
      Watchd.DepthIsIgnored(s.list, x);
      assert n.tracked[x] == s.list[x].1;
      assert n.tracked - {x} == map y | y in s.list - {x} :: (s.list - {x})[y].1;
    }
  }

  lemma RequestRefines(n: Node.Node, s: Watchd.State, a: Watchd.Action)
    requires (a.Track? || a.Untrack?) && n.tracked == Tracked(s)
    ensures
      var s', n' := Watchd.Next(s, a), Observed(n, s, a);
      n'.tracked == Tracked(s') && Posts(n, n', s, s', None)
  {
  }

  /** Every step of the threads is a step of the node's watchd, or invisible. */
  lemma ThreadsRefineWatchd(n: Node.Node, s: Watchd.State, a: Watchd.Action)
    requires Watchd.Enabled(s, a) && n.tracked == Tracked(s)
    ensures
      var s', n' := Watchd.Next(s, a), Observed(n, s, a);
      n'.tracked == Tracked(s') && Posts(n, n', s, s', Told(s, a))
  {
    match a
    case Bridge => BridgeRefines(n, s);
    case Track(_, _, _) => RequestRefines(n, s, a);
    case Untrack(_) => RequestRefines(n, s, a);
    case _ =>
  }
}
