/** Reestablishing a channel: how the peer's message reaches the channel daemon, what it does, and
    what becomes of two daemons that answer each other. */
module Reestablishment {
  import opened Types
  import Launch
  import Lnpd
  import Channeld
  import Peerd

  // ---------- The channel daemon ----------

  /** What the daemon tells its peer and its router. */
  function Replies(identity: ServiceId, peer: NodeId, id: Slice32): seq<Envelope> {
    [Envelope(identity, PeerBolt(peer), Bolt(ChannelReestablish(id))), Envelope(identity, Router, Ctl(ChannelCreated(id)))]
  }

  /** In any state it can be in, the daemon answers a reestablishment that the core library accepts
      with one of the same channel, to the peer it came from, announces the channel to the
      router, and is active with that peer; otherwise it sends nothing and keeps its machine. */
  lemma DaemonAnswers(d: Channeld.Daemon, peer: NodeId, id: Slice32, v: Channeld.Verdict)
    requires Channeld.Healthy(d)
    ensures
      var r := Channeld.Handle(d, PeerBolt(peer), Bolt(ChannelReestablish(id)), v);
      if v.core && v.budget > 0 then
        && r.status == Channeld.Updated && r.sends == Replies(d.identity, peer, id)
        && r.d.state.machine == Channeld.Active && r.d.state.remote == Some(peer)
        && r.d.state.channel == d.state.channel && r.d.identity == d.identity
        && r.d.file == d.file && r.d.disk == d.disk[d.file := Some(r.d.state)]
      else
        && r.status == Channeld.Kept && r.sends == []
        && r.d == if v.core then d.(state := d.state.(remote := Some(peer))) else d
  {
  }

  // ---------- Through lnpd ----------

  /** The peer's message as the daemon gets it. */
  function Passed(peer: NodeId, id: Slice32): Envelope {
    Envelope(PeerBolt(peer), Channel(id), Bolt(ChannelReestablish(id)))
  }

  /** A known channel: lnpd hands the message on at once and does nothing else. */
  lemma KnownIsPassedOn(s: Lnpd.State, peer: NodeId, id: Slice32)
    requires id in s.channels
    ensures
      Lnpd.Step(s, Lnpd.Peer(peer, ChannelReestablish(id))) == Lnpd.Effect(s, [Passed(peer, id)], None, None, Lnpd.Ok)
  {
  }

  /** Events about other daemons between launch and greeting. */
  predicate Elsewhere(e: Lnpd.Event, id: Slice32) {
    match e
    case Peer(_, ChannelReestablish(other)) => other != id
    case Peer(_, OpenChannel(temp, _, _)) => temp != id
    case Peer(_, _) => true
    case Request(temp, _, _) => temp != id
    case Control(source, msg, backend) =>
      && source != Channel(id)
      && (msg.ConstructFunding? && backend.funding.Funded? ==>
            ChannelIdWith(backend.funding.psbt.txid, backend.funding.psbt.vout) != id)
      && (msg.Keyset? ==> msg.service != Channel(id))
  }

  /** lnpd waits for the daemon it launched for the channel. */
  predicate Awaits(s: Lnpd.State, peer: NodeId, id: Slice32) {
    && Channel(id) in s.reestablishing && s.reestablishing[Channel(id)] == (peer, id)
    && Channel(id) !in s.creating && Channel(id) !in s.accepting
  }

  /** An unknown channel: lnpd launches its daemon and waits; */
  lemma UnknownIsLaunched(s: Lnpd.State, peer: NodeId, id: Slice32)
    requires id !in s.channels && Channel(id) !in s.creating && Channel(id) !in s.accepting
    ensures
      var effect := Lnpd.Step(s, Lnpd.Peer(peer, ChannelReestablish(id)));
      && effect.launched == Some(id) && effect.sends == [] && effect.status == Lnpd.Ok
      && Awaits(effect.state, peer, id)
  {
  }

  lemma DriveWaits(s: Lnpd.State, place: Lnpd.Place, l: Launch.ChannelLauncher, msg: CtlMsg, t: Launch.Transition, id: Slice32)
    requires Channel(id) !in s.creating && place != Lnpd.Creating(Channel(id))
    requires t.outcome.Became? ==> Lnpd.Destination(place, msg, t.outcome.launcher) != Some(Lnpd.Creating(Channel(id)))
    ensures
      var s' := Lnpd.Conclude(s, place, l, msg, t).state;
      && Channel(id) !in s'.creating && s'.reestablishing == s.reestablishing && s'.accepting == s.accepting
  {
    AbsorbWaits(s, place, l, t, id);
    if t.outcome.Became? {
      var to := Lnpd.Destination(place, msg, t.outcome.launcher);
      if to.Some? {
        PutWaits(Lnpd.Absorb(Lnpd.Take(s, place), l, t), to.value, t.outcome.launcher, id);
      }
    }
  }

  lemma AbsorbWaits(s: Lnpd.State, place: Lnpd.Place, l: Launch.ChannelLauncher, t: Launch.Transition, id: Slice32)
    requires Channel(id) !in s.creating
    ensures
      var s' := Lnpd.Absorb(Lnpd.Take(s, place), l, t);
      && Channel(id) !in s'.creating && s'.reestablishing == s.reestablishing && s'.accepting == s.accepting
  {
  }

  lemma PutWaits(s: Lnpd.State, place: Lnpd.Place, l: Launch.ChannelLauncher, id: Slice32)
    requires Channel(id) !in s.creating && place != Lnpd.Creating(Channel(id))
    ensures
      var s' := Lnpd.Put(s, place, l);
      && Channel(id) !in s'.creating && s'.reestablishing == s.reestablishing && s'.accepting == s.accepting
  {
  }

  /** nothing that happens elsewhere makes it forget; */
  lemma WaitingLasts(s: Lnpd.State, peer: NodeId, id: Slice32, e: Lnpd.Event)
    requires Lnpd.Keyed(s) && Awaits(s, peer, id) && Elsewhere(e, id)
    ensures Awaits(Lnpd.Step(s, e).state, peer, id)
  {
    if e.Control? {
      var place := Lnpd.Addressed(e.source, e.msg);
      if place.Some? && Lnpd.At(s, place.value).Some? {
        ControlWaits(s, peer, id, e.source, e.msg, e.backend, place.value);
      } else {
        SparedWaits(s, peer, id, e.source, e.msg, e.backend);
      }
    }
  }

  lemma ControlWaits(s: Lnpd.State, peer: NodeId, id: Slice32, source: ServiceId, msg: CtlMsg, backend: Launch.Backend,
                     place: Lnpd.Place)
    requires Lnpd.Keyed(s) && Awaits(s, peer, id) && Elsewhere(Lnpd.Control(source, msg, backend), id)
    requires Lnpd.Addressed(source, msg) == Some(place) && Lnpd.At(s, place).Some?
    ensures Awaits(Lnpd.HandleCtl(s, source, msg, backend).state, peer, id)
  {
    var s0, l := Lnpd.Greeted(s, source, msg), Lnpd.At(s, place).value;
    Lnpd.ControlDrives(s, source, msg, backend, place);
    var t := Launch.Next(l, Lnpd.EventSource(source, msg), msg, s0.params, s0.pending, backend);
    NotThere(s, place, l, source, msg, backend, id);
    DriveWaits(s0, place, l, msg, t, id);
  }

  lemma NotThere(s: Lnpd.State, place: Lnpd.Place, l: Launch.ChannelLauncher, source: ServiceId, msg: CtlMsg,
                 backend: Launch.Backend, id: Slice32)
    requires Lnpd.Keyed(s) && Channel(id) !in s.creating && Lnpd.At(s, place) == Some(l)
    requires Lnpd.Addressed(source, msg) == Some(place)
    requires msg.ConstructFunding? && backend.funding.Funded? ==>
               ChannelIdWith(backend.funding.psbt.txid, backend.funding.psbt.vout) != id
    ensures
      var t := Launch.Next(l, Lnpd.EventSource(source, msg), msg, s.params, s.pending, backend);
      t.outcome.Became? ==> Lnpd.Destination(place, msg, t.outcome.launcher) != Some(Lnpd.Creating(Channel(id)))
  {
    assert Lnpd.Fits(place, l, s.pending);
  }

  lemma SparedWaits(s: Lnpd.State, peer: NodeId, id: Slice32, source: ServiceId, msg: CtlMsg, backend: Launch.Backend)
    requires Awaits(s, peer, id) && source != Channel(id)
    requires var place := Lnpd.Addressed(source, msg); place.None? || Lnpd.At(s, place.value).None?
    ensures Awaits(Lnpd.HandleCtl(s, source, msg, backend).state, peer, id)
  {
    if msg.Hello? {
      var s0 := Lnpd.Register(s, source);
      assert Lnpd.At(s0, Lnpd.Creating(source)).None?;
      GreetingWaits(s0, peer, id, source);
    } else if Lnpd.Addressed(source, msg).Some? {
      assert Lnpd.HandleCtl(s, source, msg, backend) == Lnpd.Effect(s, [], None, None, Lnpd.Panic);
    }
  }

  lemma GreetingWaits(s: Lnpd.State, peer: NodeId, id: Slice32, source: ServiceId)
    requires Awaits(s, peer, id) && source != Channel(id)
    ensures Awaits(Lnpd.HelloFromOthers(s, source).state, peer, id)
  {
  }

  /** and when the daemon greets, it gets the message just as a known one would. */
  lemma GreetingPassesOn(s: Lnpd.State, peer: NodeId, id: Slice32, backend: Launch.Backend)
    requires Awaits(s, peer, id)
    ensures
      var effect := Lnpd.Step(s, Lnpd.Control(Channel(id), Hello, backend));
      && effect.sends == [Passed(peer, id)] && effect.status == Lnpd.Ok && effect.launched == None
      && effect.state == s.(channels := s.channels + {id}, reestablishing := s.reestablishing - {Channel(id)})
  {
    assert Lnpd.At(Lnpd.Register(s, Channel(id)), Lnpd.Creating(Channel(id))).None?;
  }

  lemma {:induction false} WaitingSurvives(s: Lnpd.State, peer: NodeId, id: Slice32, events: seq<Lnpd.Event>)
    requires Lnpd.Keyed(s) && Awaits(s, peer, id) && forall e | e in events :: Elsewhere(e, id)
    ensures Awaits(Lnpd.Run(s, events), peer, id)
    decreases |events|
  {
    if events != [] {
      WaitingLasts(s, peer, id, events[0]);
      Lnpd.StepKeepsKeyed(s, events[0]);
      WaitingSurvives(Lnpd.Step(s, events[0]).state, peer, id, events[1..]);
    }
  }

  /** From the peer's message to its answer: the peer daemon gives it to lnpd; if lnpd does not know
      the channel it launches its daemon `d`, and whatever happens elsewhere until that one greets,
      the daemon is handed the message and answers the peer about the same channel. */
  lemma UnknownChannelAnswers(s: Lnpd.State, peer: NodeId, id: Slice32, events: seq<Lnpd.Event>, backend: Launch.Backend,
                              d: Channeld.Daemon, v: Channeld.Verdict)
    requires Channeld.Healthy(d) && d.identity == Channel(id)
    requires Lnpd.Keyed(s) && id !in s.channels && Channel(id) !in s.creating && Channel(id) !in s.accepting
    requires (forall e | e in events :: Elsewhere(e, id)) && v.core && v.budget > 0
    ensures
      var s1 := Lnpd.Step(s, Lnpd.Peer(peer, ChannelReestablish(id))).state;
      var effect := Lnpd.Step(Lnpd.Run(s1, events), Lnpd.Control(Channel(id), Hello, backend));
      && Peerd.Route(ChannelReestablish(id)) == Some(LnpBroker)
      && effect.sends == [Passed(peer, id)] && Channel(id) !in effect.state.reestablishing && id in effect.state.channels
      && var r := Channeld.Handle(d, effect.sends[0].source, effect.sends[0].msg, v);
         r.d.state.machine == Channeld.Active && r.sends == Replies(Channel(id), peer, id)
  {
    var e := Lnpd.Peer(peer, ChannelReestablish(id));
    UnknownIsLaunched(s, peer, id);
    Lnpd.StepKeepsKeyed(s, e);
    WaitingSurvives(Lnpd.Step(s, e).state, peer, id, events);
    GreetingPassesOn(Lnpd.Run(Lnpd.Step(s, e).state, events), peer, id, backend);
    DaemonAnswers(d, peer, id, v);
  }

  /** The answer leaves through the peer daemon, which then knows the channel by this id. */
  lemma AnswerRegisters(channels: set<Peerd.ActiveId>, id: Slice32)
    ensures Peerd.Outgoing(channels, ChannelReestablish(id)) == channels + {Peerd.Static(id)}
    ensures Peerd.Incoming(channels, ChannelReestablish(id)) == channels
  {
  }

  // ---------- Two nodes ----------

  /** Two channel daemons, and the reestablishment on its way to one of them. */
  datatype Pair = Pair(here: Channeld.Daemon, there: Channeld.Daemon, toHere: bool, id: Slice32)

  /** The message is taken, and the first message of the reply is on its way back. */
  function Exchange(p: Pair, nodes: (NodeId, NodeId), v: Channeld.Verdict): Pair {
    var d := if p.toHere then p.here else p.there;
    var peer := if p.toHere then nodes.1 else nodes.0;
    var r := Channeld.Handle(d, PeerBolt(peer), Bolt(ChannelReestablish(p.id)), v);
    var reply := if r.sends != [] && r.sends[0].msg.Bolt? && r.sends[0].msg.bolt.ChannelReestablish?
                 then r.sends[0].msg.bolt.channelId else p.id;
    if p.toHere then Pair(r.d, p.there, false, reply) else Pair(p.here, r.d, true, reply)
  }

  function Exchanges(p: Pair, nodes: (NodeId, NodeId), v: Channeld.Verdict, n: nat): Pair {
    if n == 0 then p else Exchange(Exchanges(p, nodes, v, n - 1), nodes, v)
  }

  /** The one that takes the message is active with the other, which is not touched. */
  predicate Turned(q: Pair, q': Pair, nodes: (NodeId, NodeId)) {
    && q'.id == q.id && q'.toHere == !q.toHere && (if q.toHere then q'.there == q.there else q'.here == q.here)
    && var d, peer := if q.toHere then q'.here else q'.there, if q.toHere then nodes.1 else nodes.0;
       Channeld.Healthy(d) && d.state.machine == Channeld.Active && d.state.remote == Some(peer)
  }

  lemma ExchangeTurns(q: Pair, nodes: (NodeId, NodeId), v: Channeld.Verdict)
    requires Channeld.Healthy(q.here) && Channeld.Healthy(q.there) && v.core && v.budget > 0
    ensures Turned(q, Exchange(q, nodes, v), nodes)
  {
    DaemonAnswers(if q.toHere then q.here else q.there, if q.toHere then nodes.1 else nodes.0, q.id, v);
  }

  predicate ActiveWith(d: Channeld.Daemon, peer: NodeId) {
    d.state.machine == Channeld.Active && d.state.remote == Some(peer)
  }

  /** What n messages after `p` look like. */
  predicate Ongoing(p: Pair, q: Pair, nodes: (NodeId, NodeId), n: nat) {
    && Channeld.Healthy(q.here) && Channeld.Healthy(q.there) && q.id == p.id
    && (n == 0 ==> q == p)
    && (n == 1 ==> q.toHere == !p.toHere && ActiveWith(if p.toHere then q.here else q.there, if p.toHere then nodes.1 else nodes.0))
    && (n >= 2 ==> ActiveWith(q.here, nodes.1) && ActiveWith(q.there, nodes.0))
  }

  lemma GoesOn(p: Pair, q: Pair, q': Pair, nodes: (NodeId, NodeId), n: nat)
    requires Ongoing(p, q, nodes, n) && Turned(q, q', nodes)
    ensures Ongoing(p, q', nodes, n + 1)
  {
  }

  lemma {:induction false} ExchangesKeep(p: Pair, nodes: (NodeId, NodeId), v: Channeld.Verdict, n: nat)
    requires Channeld.Healthy(p.here) && Channeld.Healthy(p.there) && v.core && v.budget > 0
    ensures Ongoing(p, Exchanges(p, nodes, v, n), nodes, n)
  {
    if n > 0 {
      var q := Exchanges(p, nodes, v, n - 1);
      ExchangesKeep(p, nodes, v, n - 1);
      ExchangeTurns(q, nodes, v);
      GoesOn(p, q, Exchange(q, nodes, v), nodes, n - 1);
    }
  }

  /** Once each has taken the other's message both are active, with each other, on the same id. */
  lemma BothBecomeActive(p: Pair, nodes: (NodeId, NodeId), v: Channeld.Verdict)
    requires Channeld.Healthy(p.here) && Channeld.Healthy(p.there) && v.core && v.budget > 0
    ensures
      var q := Exchanges(p, nodes, v, 2);
      && q.here.state.machine == Channeld.Active && q.here.state.remote == Some(nodes.1)
      && q.there.state.machine == Channeld.Active && q.there.state.remote == Some(nodes.0) && q.id == p.id
  {
    ExchangesKeep(p, nodes, v, 2);
  }

  /** But the exchange does not end there: the active daemons go on answering each other, and after
      any number of messages one more is on its way. */
  lemma ExchangeNeverEnds(p: Pair, nodes: (NodeId, NodeId), v: Channeld.Verdict, n: nat)
    requires Channeld.Healthy(p.here) && Channeld.Healthy(p.there) && v.core && v.budget > 0
    ensures
      var q := Exchanges(p, nodes, v, n);
      var d, peer := if q.toHere then q.here else q.there, if q.toHere then nodes.1 else nodes.0;
      var r := Channeld.Handle(d, PeerBolt(peer), Bolt(ChannelReestablish(q.id)), v);
      r.sends == Replies(d.identity, peer, p.id)
  {
    ExchangesKeep(p, nodes, v, n);
    var q := Exchanges(p, nodes, v, n);
    DaemonAnswers(if q.toHere then q.here else q.there, if q.toHere then nodes.1 else nodes.0, q.id, v);
  }
}
