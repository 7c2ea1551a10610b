/** No channel launch is lost or overwritten by lnpd, however many run at once. */
module Ledger {
  import opened Types
  import opened Reservations
  import opened Launch
  import opened Lnpd

  /** The temporary id a launch was started under. Once the channel is renamed it is found in
      the reservation of its funding transaction. */
  function Origin(l: ChannelLauncher, pending: Table): Slice32 {
    if l.FundingTxid().Some? && l.txid in pending then pending[l.txid].temp else l.Id()
  }

  function OriginAt(s: State, p: Place): Option<Slice32> {
    var l := At(s, p);
    if l.Some? then Some(Origin(l.value, s.pending)) else None
  }

  ghost predicate Live(s: State, temp: Slice32) {
    exists p :: OriginAt(s, p) == Some(temp)
  }

  /** Every live launch is in exactly one place. */
  ghost predicate Separate(s: State) {
    forall p, q | OriginAt(s, p).Some? && OriginAt(s, p) == OriginAt(s, q) :: p == q
  }

  /** Renamed launchers carry the id derived from their funding transaction. */
  ghost predicate Anchored(s: State) {
    forall k | k in s.creating && s.creating[k].Committing? ::
      s.creating[k].channelId == ChannelIdWith(s.creating[k].txid, FIRST_OUTPUT)
  }

  ghost predicate Inv(s: State) {
    Keyed(s) && WellFormed(s.pending) && Separate(s) && Anchored(s)
  }

  /** What a funding wallet's answer is like: it spends at least one outpoint, none of them
      reserved, funds the channel with its first output and is told apart by its txid. */
  ghost predicate Acceptable(pending: Table, psbt: Psbt) {
    && psbt.vout == FIRST_OUTPUT && psbt.inputs != []
    && Unreserved(pending, psbt.inputs) && CollisionFree(pending, psbt)
  }

  /** Random temporary ids are new and differ from permanent ids; the wallet answers as above. */
  ghost predicate Fresh(s: State, e: Event) {
    match e
    case Request(temp, _, _) => !Live(s, temp) && Channel(temp) !in s.creating
    case Control(_, ConstructFunding(_), backend) =>
      backend.funding.Funded? ==>
        var psbt := backend.funding.psbt;
        var key := Channel(ChannelIdWith(psbt.txid, psbt.vout));
        Acceptable(s.pending, psbt) && (key in s.creating ==> s.creating[key].Committing?)
    case _ => true
  }

  /** The launch an event brings to an end, by completing it or by failing it. A panic ends the
      daemon and no launch in particular. */
  function Ended(s: State, e: Event): Option<Slice32> {
    if !e.Control? || Addressed(e.source, e.msg).None? then None
    else
      var place := Addressed(e.source, e.msg).value;
      var l := At(s, place);
      if l.None? then None
      else
        var outcome := Next(l.value, EventSource(e.source, e.msg), e.msg, s.params, s.pending, e.backend).outcome;
        if outcome.Became? || outcome.Panicked? then None else OriginAt(s, place)
  }

  function Started(e: Event): Option<Slice32> {
    if e.Request? then Some(e.temp) else None
  }

  // ---------- Moving a launcher ----------

  /** `s'` is `s` with the launch at `from` moved to `to`. */
  ghost predicate Moved(s: State, s': State, from: Place, to: Place) {
    && OriginAt(s, from).Some?
    && (to == from || OriginAt(s, to).None?)
    && forall p :: OriginAt(s', p) ==
         if p == to then OriginAt(s, from) else if p == from then None else OriginAt(s, p)
  }

  lemma MovedConserves(s: State, s': State, from: Place, to: Place)
    requires Separate(s) && Moved(s, s', from, to)
    ensures Separate(s') && forall t :: Live(s', t) <==> Live(s, t)
  {
    forall t
      ensures Live(s', t) <==> Live(s, t)
    {
      if Live(s, t) {
        var p :| OriginAt(s, p) == Some(t);
        assert OriginAt(s', if p == from then to else p) == Some(t);
      }
      if Live(s', t) {
        var p :| OriginAt(s', p) == Some(t);
        assert OriginAt(s, if p == to then from else p) == Some(t);
      }
    }
    forall p, q | OriginAt(s', p).Some? && OriginAt(s', p) == OriginAt(s', q)
      ensures p == q
    {
      var p0, q0 := if p == to then from else p, if q == to then from else q;
      assert OriginAt(s, p0) == OriginAt(s, q0);
    }
  }

  /** `s'` is `s` without the launch at `from`. */
  ghost predicate Removed(s: State, s': State, from: Place) {
    && OriginAt(s, from).Some?
    && forall p :: OriginAt(s', p) == if p == from then None else OriginAt(s, p)
  }

  lemma RemovedConserves(s: State, s': State, from: Place)
    requires Separate(s) && Removed(s, s', from)
    ensures Separate(s') && forall t :: Live(s', t) <==> Live(s, t) && OriginAt(s, from) != Some(t)
  {
    forall t
      ensures Live(s', t) <==> Live(s, t) && OriginAt(s, from) != Some(t)
    {
      if Live(s, t) && OriginAt(s, from) != Some(t) {
        var p :| OriginAt(s, p) == Some(t);
        assert OriginAt(s', p) == Some(t);
      }
      if Live(s', t) {
        var p :| OriginAt(s', p) == Some(t);
        assert OriginAt(s, p) == Some(t) && p != from;
      }
    }
    forall p, q | OriginAt(s', p).Some? && OriginAt(s', p) == OriginAt(s', q)
      ensures p == q
    {
      assert OriginAt(s, p) == OriginAt(s, q);
    }
  }

  // ---------- Handlers move, never overwrite ----------

  /** A new reservation leaves the origins of all launchers in place as they are. */
  lemma AbsorbKeepsOrigins(s: State, l: ChannelLauncher, t: Transition, p: Place)
    requires Keyed(s)
    requires t.reserved.Some? ==> t.reserved.value.txid !in s.pending
    ensures OriginAt(Absorb(s, l, t), p) == OriginAt(s, p)
  {
    var s' := Absorb(s, l, t);
    assert At(s', p) == At(s, p);
  }

  lemma TakeAt(s: State, place: Place, p: Place)
    ensures At(Take(s, place), p) == if p == place then None else At(s, p)
    ensures OriginAt(Take(s, place), p) == if p == place then None else OriginAt(s, p)
  {
  }

  lemma PutAt(s: State, place: Place, l: ChannelLauncher, p: Place)
    ensures OriginAt(Put(s, place, l), p) == if p == place then Some(Origin(l, s.pending)) else OriginAt(s, p)
  {
  }

  /** Fresh funding gives an unused permanent id. */
  lemma PermanentIdUnused(s: State, psbt: Psbt)
    requires Inv(s) && Acceptable(s.pending, psbt)
    requires var key := Channel(ChannelIdWith(psbt.txid, psbt.vout)); key in s.creating ==> s.creating[key].Committing?
    ensures psbt.txid !in s.pending
    ensures Channel(ChannelIdWith(psbt.txid, psbt.vout)) !in s.creating
  {
    FreshTxid(s.pending, psbt);
    var key := Channel(ChannelIdWith(psbt.txid, psbt.vout));
    if key in s.creating {
      assert At(s, Creating(key)) == Some(s.creating[key]);
      ChannelIdInjective(s.creating[key].txid, psbt.txid, FIRST_OUTPUT);
    }
  }

  ghost predicate Driven(s: State, place: Place, l: ChannelLauncher, source: ServiceId, msg: CtlMsg, backend: Backend) {
    && Inv(s) && At(s, place) == Some(l)
    && Addressed(source, msg) == Some(place) && Fresh(s, Control(source, msg, backend))
  }

  /** The launcher keeps its origin and the place it is put into is free. */
  lemma DestinationFree(s: State, place: Place, l: ChannelLauncher, source: ServiceId, msg: CtlMsg, backend: Backend)
    requires Driven(s, place, l, source, msg, backend)
    requires Next(l, source, msg, s.params, s.pending, backend).outcome.Became?
    ensures
      var t := Next(l, source, msg, s.params, s.pending, backend);
      var to := Destination(place, msg, t.outcome.launcher);
      && (t.reserved.Some? ==> t.reserved.value.txid !in s.pending)
      && to.Some? && (to.value == place || At(s, to.value).None?)
      && Origin(t.outcome.launcher, Absorb(Take(s, place), l, t).pending) == Origin(l, s.pending)
  {
    var t := Next(l, source, msg, s.params, s.pending, backend);
    assert Fits(place, l, s.pending);
    NextFits(s, place, l, source, msg, backend);
    if msg.ConstructFunding? {
      PermanentIdUnused(s, backend.funding.psbt);
    } else if msg.PublishFunding? {
      assert OriginAt(s, place) == Some(Origin(l, s.pending));
      var to := FundingAt(l.txid);
      assert OriginAt(s, to).Some? ==> OriginAt(s, to) == OriginAt(s, place);
    }
  }

  lemma DriveMoves(s: State, place: Place, l: ChannelLauncher, source: ServiceId, msg: CtlMsg, backend: Backend)
    requires Driven(s, place, l, source, msg, backend)
    requires Next(l, source, msg, s.params, s.pending, backend).outcome.Became?
    ensures
      var l' := Next(l, source, msg, s.params, s.pending, backend).outcome.launcher;
      Moved(s, Drive(s, place, l, source, msg, backend).state, place, Destination(place, msg, l').value)
  {
    var t := Next(l, source, msg, s.params, s.pending, backend);
    DestinationFree(s, place, l, source, msg, backend);
    TakeKeepsKeyed(s, place);
    var s1 := Absorb(Take(s, place), l, t);
    var to := Destination(place, msg, t.outcome.launcher).value;
    forall p
      ensures OriginAt(Put(s1, to, t.outcome.launcher), p) ==
              if p == to then OriginAt(s, place) else if p == place then None else OriginAt(s, p)
    {
      TakeAt(s, place, p);
      AbsorbKeepsOrigins(Take(s, place), l, t, p);
      PutAt(s1, to, t.outcome.launcher, p);
    }
    assert Drive(s, place, l, source, msg, backend).state == Put(s1, to, t.outcome.launcher);
  }

  lemma DriveDrops(s: State, place: Place, l: ChannelLauncher, source: ServiceId, msg: CtlMsg, backend: Backend)
    requires Driven(s, place, l, source, msg, backend)
    requires var outcome := Next(l, source, msg, s.params, s.pending, backend).outcome; !outcome.Became? && !outcome.Panicked?
    ensures Removed(s, Drive(s, place, l, source, msg, backend).state, place)
    ensures Drive(s, place, l, source, msg, backend).state == Take(s, place)
  {
    assert Fits(place, l, s.pending);
    DrivePanics(s, place, l, source, msg, backend);
    forall p
      ensures OriginAt(Take(s, place), p) == if p == place then None else OriginAt(s, p)
    {
      TakeAt(s, place, p);
    }
  }

  // ---------- Steps and runs ----------

  predicate HasAnchor(l: ChannelLauncher) {
    l.Committing? ==> l.channelId == ChannelIdWith(l.txid, FIRST_OUTPUT)
  }

  lemma NextHasAnchor(l: ChannelLauncher, source: ServiceId, msg: CtlMsg, params: ChannelParams, pending: Table, backend: Backend)
    requires HasAnchor(l)
    requires msg.ConstructFunding? && backend.funding.Funded? ==> backend.funding.psbt.vout == FIRST_OUTPUT
    ensures
      var t := Next(l, source, msg, params, pending, backend);
      && (t.outcome.Became? ==> HasAnchor(t.outcome.launcher))
      && (t.reserved.Some? ==> msg.ConstructFunding? && backend.funding == Funded(t.reserved.value))
  {
  }

  lemma PutAnchored(s: State, place: Place, l: ChannelLauncher)
    requires Anchored(s) && HasAnchor(l)
    ensures Anchored(Put(s, place, l)) && Put(s, place, l).pending == s.pending
  {
  }

  lemma AbsorbAnchored(s: State, place: Place, l: ChannelLauncher, t: Transition)
    requires Anchored(s) && WellFormed(s.pending)
    requires t.reserved.Some? ==> Unreserved(s.pending, t.reserved.value.inputs)
    ensures var s' := Absorb(Take(s, place), l, t); Anchored(s') && WellFormed(s'.pending)
  {
    if t.reserved.Some? {
      ReserveKeepsWellFormed(s.pending, l.Id(), t.reserved.value);
    }
  }

  lemma DriveAnchors(s: State, place: Place, l: ChannelLauncher, source: ServiceId, msg: CtlMsg, backend: Backend)
    requires Driven(s, place, l, source, msg, backend)
    requires Next(l, source, msg, s.params, s.pending, backend).outcome.Became?
    ensures var s' := Drive(s, place, l, source, msg, backend).state; WellFormed(s'.pending) && Anchored(s')
  {
    var t := Next(l, source, msg, s.params, s.pending, backend);
    LauncherHasAnchor(s, place, l);
    NextHasAnchor(l, source, msg, s.params, s.pending, backend);
    AbsorbAnchored(s, place, l, t);
    ConcludeAnchors(s, place, l, msg, t);
  }

  lemma LauncherHasAnchor(s: State, place: Place, l: ChannelLauncher)
    requires Keyed(s) && Anchored(s) && At(s, place) == Some(l)
    ensures HasAnchor(l)
  {
    assert Fits(place, l, s.pending);
  }

  lemma ConcludeAnchors(s: State, place: Place, l: ChannelLauncher, msg: CtlMsg, t: Transition)
    requires Anchored(s) && WellFormed(s.pending) && t.outcome.Became? && HasAnchor(t.outcome.launcher)
    requires var s1 := Absorb(Take(s, place), l, t); Anchored(s1) && WellFormed(s1.pending)
    ensures var s' := Conclude(s, place, l, msg, t).state; WellFormed(s'.pending) && Anchored(s')
  {
    var to := Destination(place, msg, t.outcome.launcher);
    if to.Some? {
      PutAnchored(Absorb(Take(s, place), l, t), to.value, t.outcome.launcher);
    }
  }

  lemma DriveConserves(s: State, place: Place, l: ChannelLauncher, source: ServiceId, msg: CtlMsg, backend: Backend)
    requires Driven(s, place, l, source, msg, backend)
    ensures
      var s' := Drive(s, place, l, source, msg, backend).state;
      var t := Next(l, source, msg, s.params, s.pending, backend);
      && Inv(s')
      && forall o :: Live(s', o) <==>
           Live(s, o) && (t.outcome.Became? || t.outcome.Panicked? || OriginAt(s, place) != Some(o))
  {
    var s' := Drive(s, place, l, source, msg, backend).state;
    var t := Next(l, source, msg, s.params, s.pending, backend);
    DriveKeepsKeyed(s, place, l, source, msg, backend);
    if t.outcome.Became? {
      DriveMoves(s, place, l, source, msg, backend);
      MovedConserves(s, s', place, Destination(place, msg, t.outcome.launcher).value);
      DriveAnchors(s, place, l, source, msg, backend);
    } else if !t.outcome.Panicked? {
      DriveDrops(s, place, l, source, msg, backend);
      RemovedConserves(s, s', place);
    }
  }

  lemma SameLaunchersInv(s: State, s': State)
    requires Inv(s)
    requires s'.creating == s.creating && s'.funding == s.funding && s'.pending == s.pending
    ensures Inv(s') && forall o :: Live(s', o) <==> Live(s, o)
  {
    SameLaunchersKeyed(s, s');
    assert forall p :: OriginAt(s', p) == OriginAt(s, p);
  }

  lemma CreateConserves(s: State, temp: Slice32, request: CreateChannel, client: ClientId)
    requires Inv(s) && Fresh(s, Request(temp, request, client))
    ensures
      var s' := Create(s, temp, request, client).state;
      Inv(s') && forall o :: Live(s', o) <==> Live(s, o) || o == temp
  {
    var l := Init(temp, request, client);
    var place := Creating(Channel(temp));
    var s' := Put(s, place, l);
    PutKeepsKeyed(s, place, l);
    forall p
      ensures OriginAt(s', p) == if p == place then Some(temp) else OriginAt(s, p)
    {
      PutAt(s, place, l, p);
    }
    forall o
      ensures Live(s', o) <==> Live(s, o) || o == temp
    {
      if Live(s, o) {
        var p :| OriginAt(s, p) == Some(o);
        assert OriginAt(s', p) == Some(o);
      }
      assert OriginAt(s', place) == Some(temp);
    }
    assert s' == Create(s, temp, request, client).state;
  }

  /** Conservation: an event starts at most one launch and ends at most one, and every other
      launch stays live and in exactly one place. */
  lemma StepConserves(s: State, e: Event)
    requires Inv(s) && Fresh(s, e)
    ensures
      var s' := Step(s, e).state;
      && Inv(s')
      && forall o :: Live(s', o) <==> (Live(s, o) && Ended(s, e) != Some(o)) || Started(e) == Some(o)
  {
    match e
    case Request(temp, request, client) =>
      CreateConserves(s, temp, request, client);
    case Peer(remote, ln) =>
      PeerConserves(s, remote, ln);
    case Control(source, msg, backend) =>
      ControlConserves(s, source, msg, backend);
  }

  lemma PeerConserves(s: State, remote: NodeId, ln: LnMsg)
    requires Inv(s)
    ensures var s' := HandleP2p(s, remote, ln).state; Inv(s') && forall o :: Live(s', o) <==> Live(s, o)
  {
    SameLaunchersInv(s, HandleP2p(s, remote, ln).state);
  }

  lemma ControlConserves(s: State, source: ServiceId, msg: CtlMsg, backend: Backend)
    requires Inv(s) && Fresh(s, Control(source, msg, backend))
    ensures
      var s' := HandleCtl(s, source, msg, backend).state;
      Inv(s') && forall o :: Live(s', o) <==> Live(s, o) && Ended(s, Control(source, msg, backend)) != Some(o)
  {
    var place := Addressed(source, msg);
    if place.Some? && At(s, place.value).Some? {
      var s0 := Greeted(s, source, msg);
      SameLaunchersInv(s, s0);
      ControlDrives(s, source, msg, backend, place.value);
      DriveConserves(s0, place.value, At(s, place.value).value, EventSource(source, msg), msg, backend);
    } else {
      ControlSpares(s, source, msg, backend);
      SameLaunchersInv(s, HandleCtl(s, source, msg, backend).state);
    }
  }

  ghost predicate FreshRun(s: State, events: seq<Event>)
    decreases |events|
  {
    events == [] || (Fresh(s, events[0]) && FreshRun(Step(s, events[0]).state, events[1..]))
  }

  /** The books of a run: a launch is open if it was started, or was open before, and has not
      been ended since. */
  ghost predicate Open(s: State, events: seq<Event>, temp: Slice32, before: bool)
    decreases |events|
  {
    if events == [] then before
    else Open(Step(s, events[0]).state, events[1..], temp,
              (before && Ended(s, events[0]) != Some(temp)) || Started(events[0]) == Some(temp))
  }

  /** No launch is lost or evicted: after any run, with any number of launches in progress, the
      launchers in lnpd's maps are exactly the open ones, each in exactly one place. */
  lemma {:induction false} NoLaunchLost(s: State, events: seq<Event>)
    requires Inv(s) && FreshRun(s, events)
    ensures Inv(Run(s, events))
    ensures forall temp :: Live(Run(s, events), temp) <==> Open(s, events, temp, Live(s, temp))
    decreases |events|
  {
    if events != [] {
      StepConserves(s, events[0]);
      NoLaunchLost(Step(s, events[0]).state, events[1..]);
    }
  }
}
