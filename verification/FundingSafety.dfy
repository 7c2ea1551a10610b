/** Funding safety: whatever the remote peer sends and in whatever order messages arrive, lnpd
    gives a channel's funding transaction to the network only after its channel daemon has
    announced that transaction to the peer and has then received the peer's signature. */
module FundingSafety {
  import opened Types
  import opened Node
  import Reservations
  import Launch
  import Lnpd
  import Ledger
  import Channeld
  import Peerd

  /** One step of a node facing an arbitrary peer: a delivery on any link with any answers of
      foreign code, any message from the peer, any notification from watchd, and any event of
      lnpd that concerns other channels. */
  datatype Action =
    | Take(link: Link, v: Channeld.Verdict, backend: Launch.Backend)
    | PeerSays(ln: LnMsg)
    | WatchdSays(txid: Slice32)
    | Elsewhere(event: Lnpd.Event)

  /** The lnpd event a delivery amounts to. */
  function BrokerEvent(e: Envelope, backend: Launch.Backend): Lnpd.Event {
    match e.msg
    case Ctl(ctl) => Lnpd.Control(e.source, ctl, backend)
    case Bolt(ln) => Lnpd.Peer(if e.source.PeerBolt? then e.source.node else 0, ln)
  }

  predicate ToBroker(l: Link) { l.SignLnpd? || l.ChanLnpd? || l.PeerLnpd? }

  /** The event is not about the launch started under `temp`. */
  predicate Foreign(s: Lnpd.State, e: Lnpd.Event, temp: Slice32) {
    match e
    case Request(t, _, _) => t != temp
    case Peer(_, _) => true
    case Control(source, msg, _) =>
      var place := Lnpd.Addressed(source, msg);
      place.None? || Ledger.OriginAt(s, place.value) != Some(temp)
  }

  ghost predicate Enabled(n: Node, temp: Slice32, a: Action) {
    match a
    case Take(l, _, backend) =>
      && Q(n, l) != []
      && (ToBroker(l) ==> Ledger.Fresh(n.lnpd, BrokerEvent(Q(n, l)[0], backend)))
    case Elsewhere(event) => Ledger.Fresh(n.lnpd, event) && Foreign(n.lnpd, event, temp)
    case _ => true
  }

  function Next(n: Node, a: Action): Node
    requires a.Take? ==> Q(n, a.link) != []
  {
    match a
    case Take(l, v, backend) => Deliver(n, l, v, backend).node
    case PeerSays(ln) => PeerdReceives(n, ln)
    case WatchdSays(txid) =>
      if n.chan.None? then n
      else Post(n, Watchd, Envelope(Watch, n.chan.value.identity, Ctl(TxFound(txid))))
    case Elsewhere(event) => n.(lnpd := Lnpd.Step(n.lnpd, event).state)
  }

  ghost predicate Allowed(n: Node, temp: Slice32, actions: seq<Action>)
    decreases |actions|
  {
    actions == [] ||
    (Enabled(n, temp, actions[0]) && Allowed(Next(n, actions[0]), temp, actions[1..]))
  }

  ghost function After(n: Node, temp: Slice32, actions: seq<Action>): Node
    requires Allowed(n, temp, actions)
    decreases |actions|
  {
    if actions == [] then n else After(Next(n, actions[0]), temp, actions[1..])
  }

  /** A node right after a client asked for a channel and its daemon was launched. */
  ghost predicate Start(n: Node, temp: Slice32) {
    && Ledger.Inv(n.lnpd) && n.history == []
    && n.chan == Some(Channeld.Spawn(temp))
    && (forall x | x in n.lnpd.funding && x in n.lnpd.pending :: n.lnpd.pending[x].temp != temp)
    && (forall l, e | e in Q(n, l) ::
          !(e.msg.Ctl? && (e.msg.ctl.PublishFunding? || e.msg.ctl.FundingConstructed?)))
  }

  // ---------- What the history has to show ----------

  /** The channel daemon told the peer about the funding transaction. */
  predicate Announces(entry: Entry, txid: Slice32) {
    && entry.Consumed?
    && exists e | e in entry.sends ::
         e.msg.Bolt? && e.msg.bolt.FundingCreated? && e.msg.bolt.txid == txid && e.msg.bolt.vout == FIRST_OUTPUT
  }

  /** The channel daemon took the peer's commitment signature in the state that waits for it,
      and the core library accepted it. */
  predicate Confirms(entry: Entry) {
    && entry.Consumed? && entry.core
    && entry.machine == Channeld.Propose(Channeld.Funding)
    && entry.msg.Bolt? && entry.msg.bolt.FundingSigned?
  }

  ghost predicate Announced(h: seq<Entry>, txid: Slice32) {
    exists i :: 0 <= i < |h| && Announces(h[i], txid)
  }

  ghost predicate Committed(h: seq<Entry>, txid: Slice32) {
    exists i, j :: 0 <= i < j < |h| && Announces(h[i], txid) && Confirms(h[j])
  }

  lemma HistoryGrows(h: seq<Entry>, entry: Entry, txid: Slice32)
    ensures Announced(h, txid) ==> Announced(h + [entry], txid)
    ensures Committed(h, txid) ==> Committed(h + [entry], txid)
    ensures Announces(entry, txid) ==> Announced(h + [entry], txid)
    ensures Announced(h, txid) && Confirms(entry) ==> Committed(h + [entry], txid)
  {
    var h' := h + [entry];
    assert forall i | 0 <= i < |h| :: h'[i] == h[i];
    assert h'[|h|] == entry;
    if Committed(h, txid) {
      var i, j :| 0 <= i < j < |h| && Announces(h[i], txid) && Confirms(h[j]);
      assert Announces(h'[i], txid) && Confirms(h'[j]);
    }
    if Announced(h, txid) {
      var i :| 0 <= i < |h| && Announces(h[i], txid);
      assert Announces(h'[i], txid);
    }
  }

  // ---------- Invariant ----------

  ghost predicate ChanSound(d: Channeld.Daemon, h: seq<Entry>) {
    var s := d.state;
    && (s.machine.Launch? ==> s.channel.funding.None?)
    && (s.machine.Propose? && s.channel.funding.Some? ==> s.channel.funding.value.1 == FIRST_OUTPUT)
    && (s.machine == Channeld.Propose(Channeld.Funding) ==>
          && s.channel.funding.Some?
          && d.identity == Channel(Channeld.PermanentId(d))
          && Announced(h, s.channel.funding.value.0))
  }

  /** A request to publish carries the id of a channel whose funding is confirmed. */
  ghost predicate PublishSound(e: Envelope, h: seq<Entry>) {
    e.msg == Ctl(PublishFunding) ==>
      exists x :: e.source == Channel(ChannelIdWith(x, FIRST_OUTPUT)) && Committed(h, x)
  }

  predicate FundingSound(e: Envelope) {
    e.msg.Ctl? && e.msg.ctl.FundingConstructed? ==> e.msg.ctl.psbt.vout == FIRST_OUTPUT
  }

  ghost predicate Ours(s: Lnpd.State, txid: Slice32, temp: Slice32) {
    txid in s.pending && s.pending[txid].temp == temp
  }

  ghost predicate Inv(n: Node, temp: Slice32) {
    && Ledger.Inv(n.lnpd)
    && n.chan.Some? && ChanSound(n.chan.value, n.history)
    && (forall l, e | e in Q(n, l) :: PublishSound(e, n.history) && FundingSound(e))
    && (forall x | x in n.lnpd.funding && Ours(n.lnpd, x, temp) :: Committed(n.history, x))
    && (forall k, x | 0 <= k < |n.history| && n.history[k] == Broadcast(x) ::
          x in n.lnpd.pending && (Ours(n.lnpd, x, temp) ==> Committed(n.history[..k], x)))
  }

  // ---------- Queues ----------

  lemma {:induction false} PostAllMembers(n: Node, from: Who, es: seq<Envelope>, l: Link, e: Envelope)
    requires e in Q(PostAll(n, from, es), l)
    ensures e in Q(n, l) || e in es
    decreases |es|
  {
    if es != [] {
      PostAllMembers(Post(n, from, es[0]), from, es[1..], l, e);
    }
  }

  lemma {:induction false} PostAllFrame(n: Node, from: Who, es: seq<Envelope>)
    ensures PostAll(n, from, es) == n.(net := PostAll(n, from, es).net)
    decreases |es|
  {
    if es != [] {
      PostAllFrame(Post(n, from, es[0]), from, es[1..]);
    }
  }

  // ---------- lnpd ----------

  lemma DriveFundingMap(s: Lnpd.State, place: Lnpd.Place, l: Launch.ChannelLauncher, source: ServiceId,
                        msg: CtlMsg, backend: Launch.Backend, x: Slice32)
    requires Lnpd.Fits(place, l, s.pending) && Lnpd.Addressed(source, msg) == Some(place)
    requires x in Lnpd.Drive(s, place, l, source, msg, backend).state.funding && x !in s.funding
    ensures msg.PublishFunding? && l.Committing? && l.txid == x
  {
  }

  /** An lnpd event adds a launcher to the funding map only for PublishFunding, and then for the
      transaction whose channel id the message came from. */
  lemma FundingMapGrows(s: Lnpd.State, e: Lnpd.Event, x: Slice32)
    requires Ledger.Inv(s) && x in Lnpd.Step(s, e).state.funding && x !in s.funding
    ensures e.Control? && e.msg.PublishFunding?
    ensures e.source == Channel(ChannelIdWith(x, FIRST_OUTPUT))
    ensures x in s.pending && Ledger.OriginAt(s, Lnpd.Creating(e.source)) == Some(s.pending[x].temp)
  {
    if e.Control? {
      if Lnpd.Addressed(e.source, e.msg).None? || Lnpd.At(s, Lnpd.Addressed(e.source, e.msg).value).None? {
        Lnpd.ControlSpares(s, e.source, e.msg, e.backend);
      }
      var place := Lnpd.Addressed(e.source, e.msg).value;
      var l := Lnpd.At(s, place).value;
      assert Lnpd.Fits(place, l, s.pending);
      Lnpd.ControlDrives(s, e.source, e.msg, e.backend, place);
      DriveFundingMap(Lnpd.Greeted(s, e.source, e.msg), place, l, Lnpd.EventSource(e.source, e.msg), e.msg, e.backend, x);
    }
  }

  lemma DriveReservations(s: Lnpd.State, place: Lnpd.Place, l: Launch.ChannelLauncher, source: ServiceId,
                          msg: CtlMsg, backend: Launch.Backend)
    requires Lnpd.Fits(place, l, s.pending) && Lnpd.Addressed(source, msg) == Some(place)
    ensures
      var effect := Lnpd.Drive(s, place, l, source, msg, backend);
      && (effect.state.pending == s.pending ||
          (msg.ConstructFunding? && backend.funding.Funded? &&
           effect.state.pending - {backend.funding.psbt.txid} == s.pending - {backend.funding.psbt.txid}))
      && (forall e | e in effect.sends && e.msg.Ctl? && e.msg.ctl.FundingConstructed? ::
            msg.ConstructFunding? && backend.funding == Launch.Funded(e.msg.ctl.psbt))
      && (forall e | e in effect.sends :: e.msg != Ctl(PublishFunding))
      && (effect.broadcast.Some? ==> place == Lnpd.FundingAt(effect.broadcast.value.txid))
  {
    LauncherSends(place, l, source, msg, s.params, s.pending, backend);
    ConcludeReservations(s, place, l, msg, Launch.Next(l, source, msg, s.params, s.pending, backend));
  }

  /** What a launcher sends, reserves and gives to the network. */
  lemma LauncherSends(place: Lnpd.Place, l: Launch.ChannelLauncher, source: ServiceId, msg: CtlMsg,
                      params: ChannelParams, pending: Reservations.Table, backend: Launch.Backend)
    requires Lnpd.Fits(place, l, pending) && Lnpd.Addressed(source, msg) == Some(place)
    ensures
      var t := Launch.Next(l, source, msg, params, pending, backend);
      && (t.reserved.Some? ==> msg.ConstructFunding? && backend.funding == Launch.Funded(t.reserved.value))
      && (forall e | e in t.sends && e.msg.Ctl? && e.msg.ctl.FundingConstructed? ::
            msg.ConstructFunding? && backend.funding == Launch.Funded(e.msg.ctl.psbt))
      && (forall e | e in t.sends :: e.msg != Ctl(PublishFunding))
      && (t.broadcast.Some? ==> place == Lnpd.FundingAt(t.broadcast.value.txid))
  {
  }

  lemma ConcludeReservations(s: Lnpd.State, place: Lnpd.Place, l: Launch.ChannelLauncher, msg: CtlMsg, t: Launch.Transition)
    ensures
      var effect := Lnpd.Conclude(s, place, l, msg, t);
      && (effect.state.pending == s.pending ||
          (t.reserved.Some? && effect.state.pending - {t.reserved.value.txid} == s.pending - {t.reserved.value.txid}))
      && (effect.sends == [] || effect.sends == t.sends)
      && (effect.broadcast == None || effect.broadcast == t.broadcast)
  {
    var s1 := Lnpd.Absorb(Lnpd.Take(s, place), l, t);
    assert s1.pending == s.pending ||
           (t.reserved.Some? && s1.pending - {t.reserved.value.txid} == s.pending - {t.reserved.value.txid});
    if t.outcome.Became? {
      var to := Lnpd.Destination(place, msg, t.outcome.launcher);
      if to.Some? {
        Lnpd.PutFrame(s1, to.value, t.outcome.launcher);
      }
    }
  }

  lemma ReservationsStay(s: Lnpd.State, e: Lnpd.Event, x: Slice32)
    requires Ledger.Inv(s) && Ledger.Fresh(s, e) && x in s.pending
    ensures var s' := Lnpd.Step(s, e).state; x in s'.pending && s'.pending[x] == s.pending[x]
  {
    if e.Control? {
      var place := Lnpd.Addressed(e.source, e.msg);
      if place.Some? && Lnpd.At(s, place.value).Some? {
        var l := Lnpd.At(s, place.value).value;
        assert Lnpd.Fits(place.value, l, s.pending);
        Lnpd.ControlDrives(s, e.source, e.msg, e.backend, place.value);
        DriveReservations(Lnpd.Greeted(s, e.source, e.msg), place.value, l, Lnpd.EventSource(e.source, e.msg), e.msg, e.backend);
        if e.msg.ConstructFunding? && e.backend.funding.Funded? {
          Ledger.PermanentIdUnused(s, e.backend.funding.psbt);
          var s' := Lnpd.Step(s, e).state;
          assert x in s.pending - {e.backend.funding.psbt.txid};
        }
      } else {
        Lnpd.ControlSpares(s, e.source, e.msg, e.backend);
      }
    }
  }

  /** What an lnpd event does to the launches waiting for their funding to be signed. */
  lemma EventKeepsCommitted(s: Lnpd.State, e: Lnpd.Event, temp: Slice32, h: seq<Entry>)
    requires Ledger.Inv(s) && Ledger.Fresh(s, e)
    requires forall x | x in s.funding && Ours(s, x, temp) :: Committed(h, x)
    requires Foreign(s, e, temp) ||
             (e.Control? ==> PublishSound(Envelope(e.source, LnpBroker, Ctl(e.msg)), h))
    ensures
      var s' := Lnpd.Step(s, e).state;
      && Ledger.Inv(s')
      && (forall x | x in s'.funding && Ours(s', x, temp) :: Committed(h, x))
      && (forall x | x in s.pending :: x in s'.pending && (Ours(s', x, temp) <==> Ours(s, x, temp)))
  {
    var s' := Lnpd.Step(s, e).state;
    Ledger.StepConserves(s, e);
    forall x | x in s.pending
      ensures x in s'.pending && s'.pending[x] == s.pending[x]
    {
      ReservationsStay(s, e, x);
    }
    forall x | x in s'.funding && Ours(s', x, temp)
      ensures Committed(h, x)
    {
      if x in s.funding {
        assert Lnpd.Fits(Lnpd.FundingAt(x), Lnpd.At(s, Lnpd.FundingAt(x)).value, s.pending);
      } else {
        FundingMapGrows(s, e, x);
        if !Foreign(s, e, temp) {
          var y :| e.source == Channel(ChannelIdWith(y, FIRST_OUTPUT)) && Committed(h, y);
          ChannelIdInjective(x, y, FIRST_OUTPUT);
        }
      }
    }
  }

  // ---------- Steps ----------

  /** Messages already queued stay sound while the history grows. */
  lemma QueuesKeep(n: Node, entry: Entry)
    requires forall l, e | e in Q(n, l) :: PublishSound(e, n.history) && FundingSound(e)
    ensures forall l, e | e in Q(n, l) :: PublishSound(e, n.history + [entry]) && FundingSound(e)
  {
    forall l, e | e in Q(n, l)
      ensures PublishSound(e, n.history + [entry])
    {
      PublishSoundGrows(e, n.history, entry);
    }
  }

  lemma PublishSoundGrows(e: Envelope, h: seq<Entry>, entry: Entry)
    requires PublishSound(e, h)
    ensures PublishSound(e, h + [entry])
  {
    if e.msg == Ctl(PublishFunding) {
      var x :| e.source == Channel(ChannelIdWith(x, FIRST_OUTPUT)) && Committed(h, x);
      HistoryGrows(h, entry, x);
    }
  }

  /** The channel daemon sends PublishFunding only as the confirmation arrives. */
  lemma ChanKeeps(d: Channeld.Daemon, source: ServiceId, msg: BusMsg, v: Channeld.Verdict, h: seq<Entry>)
    requires ChanSound(d, h) && FundingSound(Envelope(source, d.identity, msg))
    ensures
      var r := Channeld.Handle(d, source, msg, v);
      var entry := Consumed(d.state.machine, msg, v.core, r.sends);
      && ChanSound(r.d, h + [entry])
      && forall e | e in r.sends :: PublishSound(e, h + [entry]) && FundingSound(e)
  {
    var r := Channeld.Handle(d, source, msg, v);
    var entry := Consumed(d.state.machine, msg, v.core, r.sends);
    Channeld.HandleFundingShape(d, source, msg, v);
    Channeld.HandleSends(d, source, msg, v);
    if d.state.channel.funding.Some? {
      HistoryGrows(h, entry, d.state.channel.funding.value.0);
    }
    forall e | e in r.sends
      ensures PublishSound(e, h + [entry]) && FundingSound(e)
    {
      if e.msg == Ctl(PublishFunding) {
        assert Confirms(entry);
      }
    }
  }

  lemma PopMembers(n: Node, l: Link, l': Link, e: Envelope)
    requires Q(n, l) != [] && e in Q(Pop(n, l), l')
    ensures e in Q(n, l')
  {
  }

  /** Adding a sound message to a queue. */
  lemma PostKeeps(n: Node, temp: Slice32, from: Who, e: Envelope)
    requires Inv(n, temp) && PublishSound(e, n.history) && FundingSound(e)
    ensures Inv(Post(n, from, e), temp)
  {
    var n' := Post(n, from, e);
    forall l, e' | e' in Q(n', l)
      ensures PublishSound(e', n.history) && FundingSound(e')
    {
      assert e' == e || e' in Q(n, l);
    }
  }

  lemma {:induction false} PostAllKeeps(n: Node, temp: Slice32, from: Who, es: seq<Envelope>)
    requires Inv(n, temp) && forall e | e in es :: PublishSound(e, n.history) && FundingSound(e)
    ensures Inv(PostAll(n, from, es), temp)
    decreases |es|
  {
    if es != [] {
      PostKeeps(n, temp, from, es[0]);
      PostAllKeeps(Post(n, from, es[0]), temp, from, es[1..]);
    }
  }

  lemma PopKeeps(n: Node, temp: Slice32, l: Link)
    requires Inv(n, temp) && Q(n, l) != []
    ensures Inv(Pop(n, l), temp)
  {
    var n' := Pop(n, l);
    forall l', e | e in Q(n', l')
      ensures PublishSound(e, n.history) && FundingSound(e)
    {
      PopMembers(n, l, l', e);
    }
  }

  lemma ChanTakesKeeps(n: Node, temp: Slice32, e: Envelope, v: Channeld.Verdict)
    requires Inv(n, temp) && FundingSound(e)
    ensures Inv(ChanTakes(n, e, v).node, temp)
  {
    var d := n.chan.value;
    if d.identity == e.dest {
      var r := Channeld.Handle(d, e.source, e.msg, v);
      var entry := Consumed(d.state.machine, e.msg, v.core, r.sends);
      ChanKeeps(d, e.source, e.msg, v, n.history);
      QueuesKeep(n, entry);
      var n1 := n.(chan := Some(r.d), history := n.history + [entry]);
      EntryKeeps(n, n1, temp, entry);
      PostAllKeeps(n1, temp, Chan, r.sends);
    }
  }

  /** The lnpd part of the invariant survives a longer history. */
  lemma EntryKeeps(n: Node, n': Node, temp: Slice32, entry: Entry)
    requires Inv(n, temp) && n'.history == n.history + [entry] && n'.lnpd == n.lnpd && n'.net == n.net
    requires entry.Broadcast? ==>
               entry.txid in n.lnpd.pending && (Ours(n.lnpd, entry.txid, temp) ==> Committed(n.history, entry.txid))
    requires n'.chan.Some? && ChanSound(n'.chan.value, n'.history)
    ensures Inv(n', temp)
  {
    forall x | x in n.lnpd.funding && Ours(n.lnpd, x, temp)
      ensures Committed(n'.history, x)
    {
      HistoryGrows(n.history, entry, x);
    }
    forall k, x | 0 <= k < |n'.history| && n'.history[k] == Broadcast(x)
      ensures x in n.lnpd.pending && (Ours(n.lnpd, x, temp) ==> Committed(n'.history[..k], x))
    {
      assert n'.history[..k] == n.history[..k];
      if k == |n.history| {
        assert n.history[..k] == n.history;
      } else {
        assert n.history[k] == Broadcast(x);
      }
    }
    QueuesKeep(n, entry);
    assert forall l :: Q(n', l) == Q(n, l);
  }

  lemma ChanSoundGrows(d: Channeld.Daemon, h: seq<Entry>, entry: Entry)
    requires ChanSound(d, h)
    ensures ChanSound(d, h + [entry])
  {
    if d.state.channel.funding.Some? {
      HistoryGrows(h, entry, d.state.channel.funding.value.0);
    }
  }

  /** lnpd events change nothing but lnpd's state. */
  lemma EventKeeps(n: Node, temp: Slice32, event: Lnpd.Event)
    requires Inv(n, temp) && Ledger.Fresh(n.lnpd, event)
    requires Foreign(n.lnpd, event, temp) ||
             (event.Control? ==> PublishSound(Envelope(event.source, LnpBroker, Ctl(event.msg)), n.history))
    ensures Inv(n.(lnpd := Lnpd.Step(n.lnpd, event).state), temp)
  {
    var s' := Lnpd.Step(n.lnpd, event).state;
    EventKeepsCommitted(n.lnpd, event, temp, n.history);
    var n' := n.(lnpd := s');
    assert forall l :: Q(n', l) == Q(n, l);
  }

  /** What lnpd sends names only funding at the first output, and what it broadcasts was waiting
      in its funding map. */
  lemma EffectSound(s: Lnpd.State, source: ServiceId, msg: CtlMsg, backend: Launch.Backend)
    requires Ledger.Inv(s) && Ledger.Fresh(s, Lnpd.Control(source, msg, backend))
    ensures
      var effect := Lnpd.HandleCtl(s, source, msg, backend);
      && (forall e | e in effect.sends :: FundingSound(e) && e.msg != Ctl(PublishFunding))
      && (effect.broadcast.Some? ==> effect.broadcast.value.txid in s.funding)
  {
    var place := Lnpd.Addressed(source, msg);
    if place.Some? && Lnpd.At(s, place.value).Some? {
      var l := Lnpd.At(s, place.value).value;
      assert Lnpd.Fits(place.value, l, s.pending);
      Lnpd.ControlDrives(s, source, msg, backend, place.value);
      DriveReservations(Lnpd.Greeted(s, source, msg), place.value, l, Lnpd.EventSource(source, msg), msg, backend);
    } else {
      Lnpd.ControlSpares(s, source, msg, backend);
    }
  }

  lemma SettleKeeps(n: Node, temp: Slice32, effect: Lnpd.Effect)
    requires Inv(n, temp) && Inv(n.(lnpd := effect.state), temp)
    requires forall e | e in effect.sends :: FundingSound(e) && e.msg != Ctl(PublishFunding)
    requires effect.broadcast.Some? ==>
               var x := effect.broadcast.value.txid;
               x in effect.state.pending && (Ours(effect.state, x, temp) ==> Committed(n.history, x))
    ensures Inv(Settle(n, effect).node, temp)
  {
    var n0 := n.(lnpd := effect.state);
    PostAllKeeps(n0, temp, Broker, effect.sends);
    PostAllFrame(n0, Broker, effect.sends);
    var n1 := PostAll(n0, Broker, effect.sends);
    if effect.status.Ok? && effect.broadcast.Some? {
      var entry := Broadcast(effect.broadcast.value.txid);
      ChanSoundGrows(n.chan.value, n.history, entry);
      EntryKeeps(n1, n1.(history := n1.history + [entry]), temp, entry);
    }
  }

  lemma BrokerTakesKeeps(n: Node, temp: Slice32, e: Envelope, backend: Launch.Backend)
    requires Inv(n, temp) && PublishSound(e, n.history)
    requires Ledger.Fresh(n.lnpd, BrokerEvent(e, backend))
    ensures Inv(BrokerTakes(n, e, backend).node, temp)
  {
    var event := BrokerEvent(e, backend);
    match e.msg
    case Bolt(ln) =>
      if e.source.PeerBolt? {
        EventKeeps(n, temp, event);
        SettleKeeps(n, temp, Lnpd.HandleP2p(n.lnpd, e.source.node, ln));
      }
    case Ctl(ctl) =>
      EventKeeps(n, temp, event);
      EffectSound(n.lnpd, e.source, ctl, backend);
      EventKeepsCommitted(n.lnpd, event, temp, n.history);
      var effect := Lnpd.HandleCtl(n.lnpd, e.source, ctl, backend);
      if effect.broadcast.Some? {
        var waiting := Lnpd.FundingAt(effect.broadcast.value.txid);
        assert Lnpd.Fits(waiting, Lnpd.At(n.lnpd, waiting).value, n.lnpd.pending);
      }
      SettleKeeps(n, temp, effect);
  }

  lemma TakeKeeps(n: Node, temp: Slice32, l: Link, v: Channeld.Verdict, backend: Launch.Backend)
    requires Inv(n, temp) && Enabled(n, temp, Take(l, v, backend))
    ensures Inv(Deliver(n, l, v, backend).node, temp)
  {
    var e := Q(n, l)[0];
    assert e in Q(n, l);
    var n0 := Pop(n, l);
    PopKeeps(n, temp, l);
    match l
    case LnpdSign | ChanSign =>
      PostKeeps(n0, temp, Signd, Envelope(Signer, e.source, Ctl(SigndReply(n0, e))));
    case SignLnpd | ChanLnpd | PeerLnpd =>
      BrokerTakesKeeps(n0, temp, e, backend);
    case LnpdChan | SignChan | WatchChan | RouteChan | PeerChan =>
      ChanTakesKeeps(n0, temp, e, v);
    case ChanWatch =>
      SameQueuesKeep(n0, WatchdTakes(n0, e).node, temp);
    case ChanRoute =>
      PostKeeps(n0, temp, Routed, Envelope(Router, e.source, Ctl(Hello)));
    case ChanPeer =>
      SameQueuesKeep(n0, PeerdSends(n0, e).node, temp);
  }

  lemma SameQueuesKeep(n: Node, n': Node, temp: Slice32)
    requires Inv(n, temp)
    requires n'.lnpd == n.lnpd && n'.chan == n.chan && n'.history == n.history && n'.net == n.net
    ensures Inv(n', temp)
  {
    assert forall l :: Q(n', l) == Q(n, l);
  }

  lemma StepKeeps(n: Node, temp: Slice32, a: Action)
    requires Inv(n, temp) && Enabled(n, temp, a)
    ensures Inv(Next(n, a), temp)
  {
    match a
    case Take(l, v, backend) =>
      TakeKeeps(n, temp, l, v, backend);
    case PeerSays(ln) =>
      var n1 := n.(peers := Peerd.Incoming(n.peers, ln));
      SameQueuesKeep(n, n1, temp);
      if Peerd.Route(ln).Some? {
        PostKeeps(n1, temp, Peer, Envelope(PeerBolt(n.remote), Peerd.Route(ln).value, Bolt(ln)));
      }
    case WatchdSays(txid) =>
      PostKeeps(n, temp, Watchd, Envelope(Watch, n.chan.value.identity, Ctl(TxFound(txid))));
    case Elsewhere(event) =>
      EventKeeps(n, temp, event);
  }

  lemma {:induction false} RunKeeps(n: Node, temp: Slice32, actions: seq<Action>)
    requires Inv(n, temp) && Allowed(n, temp, actions)
    ensures Inv(After(n, temp, actions), temp)
    decreases |actions|
  {
    if actions != [] {
      StepKeeps(n, temp, actions[0]);
      RunKeeps(Next(n, actions[0]), temp, actions[1..]);
    }
  }

  /** In every run of the node against an arbitrary peer, a broadcast of a funding transaction
      reserved for the channel comes after the channel daemon announced that very transaction
      and, later, took the peer's signature while waiting for it. */
  lemma BroadcastOnlyAfterConfirmation(n: Node, temp: Slice32, actions: seq<Action>, k: nat, txid: Slice32)
    requires Start(n, temp) && Allowed(n, temp, actions)
    requires
      var n' := After(n, temp, actions);
      k < |n'.history| && n'.history[k] == Broadcast(txid) && Ours(n'.lnpd, txid, temp)
    ensures
      var h := After(n, temp, actions).history;
      exists i, j :: 0 <= i < j < k && Announces(h[i], txid) && Confirms(h[j])
  {
    assert Inv(n, temp);
    RunKeeps(n, temp, actions);
    var h := After(n, temp, actions).history;
    assert Committed(h[..k], txid);
    var i, j :| 0 <= i < j < |h[..k]| && Announces(h[..k][i], txid) && Confirms(h[..k][j]);
    assert Announces(h[i], txid) && Confirms(h[j]);
  }
}
