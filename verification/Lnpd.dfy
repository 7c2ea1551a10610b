/** The broker daemon lnpd: its keyed maps of channel launchers and the handlers moving
    launchers between them. */
module Lnpd {
  import opened Types
  import opened Reservations
  import opened Launch

  datatype State = State(
    creating: map<ServiceId, ChannelLauncher>,
    funding: map<Slice32, ChannelLauncher>,
    accepting: map<ServiceId, AcceptChannelFrom>,
    reestablishing: map<ServiceId, (NodeId, Slice32)>,
    spawning: map<ServiceId, ClientId>,
    channels: set<Slice32>,
    bolt: set<NodeId>,
    bifrost: set<NodeId>,
    pending: Table,
    params: ChannelParams)

  datatype Status = Ok | Err | Panic

  /** What handling an event yields: the new state, the messages sent, the transaction given to
      the network and the channel daemon launched. */
  datatype Effect = Effect(
    state: State, sends: seq<Envelope>, broadcast: Option<Psbt>, launched: Option<Slice32>, status: Status)

  function Quiet(s: State): Effect { Effect(s, [], None, None, Ok) }

  // ---------- Places a launcher can be in ----------

  datatype Place = Creating(key: ServiceId) | FundingAt(txid: Slice32)

  function At(s: State, p: Place): Option<ChannelLauncher> {
    match p
    case Creating(k) => if k in s.creating then Some(s.creating[k]) else None
    case FundingAt(x) => if x in s.funding then Some(s.funding[x]) else None
  }

  function Take(s: State, p: Place): State {
    match p
    case Creating(k) => s.(creating := s.creating - {k})
    case FundingAt(x) => s.(funding := s.funding - {x})
  }

  function Put(s: State, p: Place, l: ChannelLauncher): State {
    match p
    case Creating(k) => s.(creating := s.creating[k := l])
    case FundingAt(x) => s.(funding := s.funding[x := l])
  }

  /** The launcher a control message is about. */
  function Addressed(source: ServiceId, msg: CtlMsg): Option<Place> {
    match msg
    case Hello | ConstructFunding(_) | PublishFunding => Some(Creating(source))
    case Keyset(service, _) => Some(Creating(service))
    case Signed(psbt) => Some(FundingAt(psbt.txid))
    case Error(destination) => Some(Creating(destination))
    case EsbError(destination) => Some(Creating(destination))
    case _ => None
  }

  /** Where the launcher goes after the message moved it to `l`; None drops it. */
  function Destination(place: Place, msg: CtlMsg, l: ChannelLauncher): Option<Place> {
    match msg
    case Hello | Keyset(_, _) => Some(place)
    case ConstructFunding(_) => Some(Creating(Channel(l.Id())))
    case PublishFunding =>
      var txid := l.FundingTxid();
      if txid.Some? then Some(FundingAt(txid.value)) else None
    case _ => None
  }

  // ---------- Handlers ----------

  function Register(s: State, source: ServiceId): State {
    match source
    case PeerBolt(node) => s.(bolt := s.bolt + {node})
    case PeerBifrost(node) => s.(bifrost := s.bifrost + {node})
    case Channel(id) => s.(channels := s.channels + {id})
    case _ => s
  }

  function UpdateChannelId(s: State, oldId: Slice32, newId: Slice32): State {
    s.(channels := (s.channels - {oldId}) + {newId})
  }

  /** A Hello from a daemon that is not being launched for a local channel. */
  function HelloFromOthers(s: State, source: ServiceId): Effect {
    if source in s.accepting then
      Effect(s.(accepting := s.accepting - {source}),
             [Envelope(LnpBroker, source, Ctl(AcceptFrom(s.accepting[source])))], None, None, Ok)
    else if source in s.reestablishing then
      var (remote, id) := s.reestablishing[source];
      Effect(s.(reestablishing := s.reestablishing - {source}),
             [Envelope(PeerBolt(remote), source, Bolt(ChannelReestablish(id)))], None, None, Ok)
    else
      Quiet(s.(spawning := s.spawning - {source}))
  }

  /** The funding a launcher reserved enters the table and renames the channel. */
  function Absorb(s: State, l: ChannelLauncher, t: Transition): State {
    if t.reserved.None? then s
    else
      var psbt := t.reserved.value;
      UpdateChannelId(s.(pending := Reserve(s.pending, l.Id(), psbt)),
                      l.Id(), ChannelIdWith(psbt.txid, psbt.vout))
  }

  function Failing(msg: CtlMsg): Status {
    if msg.Error? || msg.EsbError? then Ok else Err
  }

  /** What a handler makes of the transition of the launcher it took out of `place`. */
  function Conclude(s: State, place: Place, l: ChannelLauncher, msg: CtlMsg, t: Transition): Effect {
    var s1 := Absorb(Take(s, place), l, t);
    match t.outcome
    case Panicked => Effect(s, [], None, None, Panic)
    case Errored(_) => Effect(s1, t.sends, t.broadcast, None, Failing(msg))
    case Finished =>
      if msg.Keyset? || msg.ConstructFunding? || msg.PublishFunding? then Effect(s, [], None, None, Panic)
      else Effect(s1, t.sends, t.broadcast, None, Ok)
    case Became(l') =>
      var to := Destination(place, msg, l');
      if to.Some? then Effect(Put(s1, to.value, l'), t.sends, t.broadcast, None, Ok)
      else if msg.PublishFunding? then Effect(s, [], None, None, Panic)
      else Effect(s1, t.sends, t.broadcast, None, Ok)
  }

  /** Runs the launcher taken out of `place` and puts it where the handler does. */
  function Drive(s: State, place: Place, l: ChannelLauncher, source: ServiceId, msg: CtlMsg,
                 backend: Backend): Effect
  {
    Conclude(s, place, l, msg, Next(l, source, msg, s.params, s.pending, backend))
  }

  /** Source of the event handed to the launcher: error replies stand in for the daemon they
      are about. */
  function EventSource(source: ServiceId, msg: CtlMsg): ServiceId {
    if msg.Error? || msg.EsbError? then msg.destination else source
  }

  /** A Hello registers the daemon before its launcher is driven. */
  function Greeted(s: State, source: ServiceId, msg: CtlMsg): State {
    if msg.Hello? then Register(s, source) else s
  }

  function HandleCtl(s: State, source: ServiceId, msg: CtlMsg, backend: Backend): Effect {
    if msg.Report? then Quiet(s)
    else if msg.ChannelUpdate? then Quiet(UpdateChannelId(s, msg.oldId, msg.newId))
    else
      var place := Addressed(source, msg);
      if place.None? then Effect(s, [], None, None, Err)
      else
        var s0 := Greeted(s, source, msg);
        var l := At(s0, place.value);
        if l.Some? then Drive(s0, place.value, l.value, EventSource(source, msg), msg, backend)
        else if msg.Hello? then HelloFromOthers(s0, source)
        else Effect(s, [], None, None, Panic)
  }

  /** A control message about a launcher drives it. */
  lemma ControlDrives(s: State, source: ServiceId, msg: CtlMsg, backend: Backend, place: Place)
    requires Addressed(source, msg) == Some(place) && At(s, place).Some?
    ensures At(Greeted(s, source, msg), place) == At(s, place)
    ensures HandleCtl(s, source, msg, backend) ==
            Drive(Greeted(s, source, msg), place, At(s, place).value, EventSource(source, msg), msg, backend)
  {
    assert At(Greeted(s, source, msg), place) == At(s, place);
  }

  /** Any other control message touches no launcher. */
  lemma ControlSpares(s: State, source: ServiceId, msg: CtlMsg, backend: Backend)
    requires var place := Addressed(source, msg); place.None? || At(s, place.value).None?
    ensures
      var effect := HandleCtl(s, source, msg, backend);
      && effect.state.creating == s.creating && effect.state.funding == s.funding
      && effect.state.pending == s.pending && effect.broadcast == None
      && forall e | e in effect.sends ::
           e.msg != Ctl(PublishFunding) && !(e.msg.Ctl? && e.msg.ctl.FundingConstructed?)
  {
    if msg.Hello? {
      var s0 := Register(s, source);
      assert At(s0, Creating(source)).None?;
      HelloSpares(s0, source);
    } else if Addressed(source, msg).Some? {
      assert HandleCtl(s, source, msg, backend) == Effect(s, [], None, None, Panic);
    }
  }

  lemma HelloSpares(s: State, source: ServiceId)
    ensures
      var effect := HelloFromOthers(s, source);
      && effect.state.creating == s.creating && effect.state.funding == s.funding
      && effect.state.pending == s.pending && effect.broadcast == None
      && forall e | e in effect.sends ::
           e.msg != Ctl(PublishFunding) && !(e.msg.Ctl? && e.msg.ctl.FundingConstructed?)
  {
    var effect := HelloFromOthers(s, source);
    if source in s.accepting {
      assert effect.sends == [Envelope(LnpBroker, source, Ctl(AcceptFrom(s.accepting[source])))];
    } else if source in s.reestablishing {
      var (remote, id) := s.reestablishing[source];
      assert effect.sends == [Envelope(PeerBolt(remote), source, Bolt(ChannelReestablish(id)))];
    } else {
      assert effect.sends == [];
    }
  }

  /** A client's CreateChannel: launches a channel daemon under a temporary id, asks signd for
      its keys and registers the launcher. */
  function Create(s: State, temp: Slice32, request: CreateChannel, client: ClientId): Effect {
    Effect(s.(creating := s.creating[Channel(temp) := Init(temp, request, client)]),
           [Envelope(LnpBroker, Signer, Ctl(DeriveKeyset(temp)))], None, Some(temp), Ok)
  }

  function HandleP2p(s: State, remote: NodeId, msg: LnMsg): Effect {
    match msg
    case OpenChannel(temp, _, _) =>
      var accept := AcceptChannelFrom(remote, s.params.policy, s.params.common, s.params.local, temp);
      Effect(s.(accepting := s.accepting[Channel(temp) := accept]), [], None, Some(temp), Ok)
    case ChannelReestablish(id) =>
      if id in s.channels then
        Effect(s, [Envelope(PeerBolt(remote), Channel(id), Bolt(msg))], None, None, Ok)
      else
        Effect(s.(reestablishing := s.reestablishing[Channel(id) := (remote, id)]), [], None, Some(id), Ok)
    case _ => Quiet(s)
  }

  datatype Event =
    | Request(temp: Slice32, request: CreateChannel, client: ClientId)
    | Control(source: ServiceId, msg: CtlMsg, backend: Backend)
    | Peer(remote: NodeId, ln: LnMsg)

  function Step(s: State, e: Event): Effect {
    match e
    case Request(temp, request, client) => Create(s, temp, request, client)
    case Control(source, msg, backend) => HandleCtl(s, source, msg, backend)
    case Peer(remote, ln) => HandleP2p(s, remote, ln)
  }

  /** State after a list of events; a panic leaves the state where it was. */
  function Run(s: State, events: seq<Event>): State
    decreases |events|
  {
    if events == [] then s else Run(Step(s, events[0]).state, events[1..])
  }

  // ---------- Frames ----------

  /** What driving a launcher never touches. */
  lemma DriveFrame(s: State, place: Place, l: ChannelLauncher, source: ServiceId, msg: CtlMsg,
                   backend: Backend)
    ensures
      var s' := Drive(s, place, l, source, msg, backend).state;
      && s'.params == s.params && s'.accepting == s.accepting
      && (Next(l, source, msg, s.params, s.pending, backend).reserved.None? ==> s'.pending == s.pending)
  {
    var t := Next(l, source, msg, s.params, s.pending, backend);
    ConcludeFrame(s, place, l, msg, t);
  }

  lemma ConcludeFrame(s: State, place: Place, l: ChannelLauncher, msg: CtlMsg, t: Transition)
    ensures
      var s' := Conclude(s, place, l, msg, t).state;
      && s'.params == s.params && s'.accepting == s.accepting
      && (t.reserved.None? ==> s'.pending == s.pending)
  {
    AbsorbFrame(Take(s, place), l, t);
    if t.outcome.Became? {
      var to := Destination(place, msg, t.outcome.launcher);
      if to.Some? {
        PutFrame(Absorb(Take(s, place), l, t), to.value, t.outcome.launcher);
      }
    }
  }

  lemma AbsorbFrame(s: State, l: ChannelLauncher, t: Transition)
    ensures
      var s' := Absorb(s, l, t);
      && s'.params == s.params && s'.accepting == s.accepting
      && (t.reserved.None? ==> s'.pending == s.pending)
  {
  }

  lemma PutFrame(s: State, place: Place, l: ChannelLauncher)
    ensures
      var s' := Put(s, place, l);
      s'.params == s.params && s'.accepting == s.accepting && s'.pending == s.pending
  {
  }

  lemma OnlyFundingReserves(l: ChannelLauncher, source: ServiceId, msg: CtlMsg, params: ChannelParams,
                            pending: Table, backend: Backend)
    requires !msg.ConstructFunding?
    ensures Next(l, source, msg, params, pending, backend).reserved.None?
  {
  }

  lemma OnlySignedBroadcasts(l: ChannelLauncher, source: ServiceId, msg: CtlMsg, params: ChannelParams,
                             pending: Table, backend: Backend)
    requires !msg.Signed?
    ensures Next(l, source, msg, params, pending, backend).broadcast.None?
  {
  }

  lemma DriveKeepsPending(s: State, place: Place, l: ChannelLauncher, source: ServiceId, msg: CtlMsg,
                          backend: Backend)
    requires !msg.ConstructFunding?
    ensures Drive(s, place, l, source, msg, backend).state.pending == s.pending
  {
    OnlyFundingReserves(l, source, msg, s.params, s.pending, backend);
    DriveFrame(s, place, l, source, msg, backend);
  }

  lemma ControlKeepsPending(s: State, source: ServiceId, msg: CtlMsg, backend: Backend)
    requires !msg.ConstructFunding?
    ensures HandleCtl(s, source, msg, backend).state.pending == s.pending
  {
    var place := Addressed(source, msg);
    if place.Some? && At(s, place.value).Some? {
      var s0, l := Greeted(s, source, msg), At(s, place.value).value;
      ControlDrives(s, source, msg, backend, place.value);
      DriveKeepsPending(s0, place.value, l, EventSource(source, msg), msg, backend);
    } else {
      ControlSpares(s, source, msg, backend);
    }
  }

  /** Only a request for funding adds a reservation. */
  lemma PendingKept(s: State, e: Event)
    requires !(e.Control? && e.msg.ConstructFunding?)
    ensures Step(s, e).state.pending == s.pending
  {
    match e
    case Control(source, msg, backend) => ControlKeepsPending(s, source, msg, backend);
    case Request(temp, request, client) =>
    case Peer(remote, ln) => PeerKeepsPending(s, remote, ln);
  }

  lemma PeerKeepsPending(s: State, remote: NodeId, ln: LnMsg)
    ensures HandleP2p(s, remote, ln).state.pending == s.pending
  {
  }

  // ---------- Keying ----------

  /** A launcher sits under its own id: by channel id until its funding is being signed, then
      by funding txid; and its funding, once it has one, is in the wallet's table. */
  predicate Fits(p: Place, l: ChannelLauncher, pending: Table) {
    match p
    case Creating(k) => k == Channel(l.Id()) && !l.Signing? && (l.Committing? ==> l.txid in pending)
    case FundingAt(x) => l.Signing? && l.txid == x && x in pending
  }

  ghost predicate Keyed(s: State) {
    forall p | At(s, p).Some? :: Fits(p, At(s, p).value, s.pending)
  }

  lemma TakeKeepsKeyed(s: State, place: Place)
    requires Keyed(s)
    ensures Keyed(Take(s, place))
  {
    var s' := Take(s, place);
    forall p | At(s', p).Some?
      ensures Fits(p, At(s', p).value, s'.pending)
    {
      assert At(s, p) == At(s', p);
    }
  }

  lemma AbsorbKeepsKeyed(s: State, l: ChannelLauncher, t: Transition)
    requires Keyed(s)
    ensures Keyed(Absorb(s, l, t))
  {
    var s' := Absorb(s, l, t);
    forall p | At(s', p).Some?
      ensures Fits(p, At(s', p).value, s'.pending)
    {
      assert At(s, p) == At(s', p);
    }
  }

  lemma PutKeepsKeyed(s: State, place: Place, l: ChannelLauncher)
    requires Keyed(s) && Fits(place, l, s.pending)
    ensures Keyed(Put(s, place, l))
  {
    var s' := Put(s, place, l);
    forall p | At(s', p).Some?
      ensures Fits(p, At(s', p).value, s'.pending)
    {
      assert p != place ==> At(s, p) == At(s', p);
    }
  }

  /** A launcher that fits its place fits the place its handler moves it to. */
  lemma NextFits(s: State, place: Place, l: ChannelLauncher, source: ServiceId, msg: CtlMsg, backend: Backend)
    requires Fits(place, l, s.pending) && Addressed(source, msg) == Some(place)
    ensures
      var t := Next(l, source, msg, s.params, s.pending, backend);
      t.outcome.Became? ==>
        var to := Destination(place, msg, t.outcome.launcher);
        to.Some? && Fits(to.value, t.outcome.launcher, Absorb(Take(s, place), l, t).pending)
  {
  }

  lemma DriveKeepsKeyed(s: State, place: Place, l: ChannelLauncher, source: ServiceId, msg: CtlMsg, backend: Backend)
    requires Keyed(s) && At(s, place) == Some(l) && Addressed(source, msg) == Some(place)
    ensures Keyed(Drive(s, place, l, source, msg, backend).state)
  {
    var t := Next(l, source, msg, s.params, s.pending, backend);
    TakeKeepsKeyed(s, place);
    AbsorbKeepsKeyed(Take(s, place), l, t);
    if t.outcome.Became? {
      NextFits(s, place, l, source, msg, backend);
      PutKeepsKeyed(Absorb(Take(s, place), l, t), Destination(place, msg, t.outcome.launcher).value, t.outcome.launcher);
    }
  }

  /** States with the same launchers and reservations are keyed alike. */
  lemma SameLaunchersKeyed(s: State, s': State)
    requires Keyed(s)
    requires s'.creating == s.creating && s'.funding == s.funding && s'.pending == s.pending
    ensures Keyed(s')
  {
    forall p | At(s', p).Some?
      ensures Fits(p, At(s', p).value, s'.pending)
    {
      assert At(s, p) == At(s', p);
    }
  }

  lemma ControlKeepsKeyed(s: State, source: ServiceId, msg: CtlMsg, backend: Backend)
    requires Keyed(s)
    ensures Keyed(HandleCtl(s, source, msg, backend).state)
  {
    var place := Addressed(source, msg);
    if place.Some? && At(s, place.value).Some? {
      var s0 := Greeted(s, source, msg);
      SameLaunchersKeyed(s, s0);
      ControlDrives(s, source, msg, backend, place.value);
      DriveKeepsKeyed(s0, place.value, At(s, place.value).value, EventSource(source, msg), msg, backend);
    } else {
      ControlSpares(s, source, msg, backend);
      SameLaunchersKeyed(s, HandleCtl(s, source, msg, backend).state);
    }
  }

  /** Every event keeps the keying, whatever its sender, payload or outcome. */
  lemma StepKeepsKeyed(s: State, e: Event)
    requires Keyed(s)
    ensures Keyed(Step(s, e).state)
  {
    match e
    case Request(temp, request, client) =>
      PutKeepsKeyed(s, Creating(Channel(temp)), Init(temp, request, client));
    case Peer(_, _) =>
      SameLaunchersKeyed(s, Step(s, e).state);
    case Control(source, msg, backend) =>
      ControlKeepsKeyed(s, source, msg, backend);
  }

  lemma {:induction false} RunKeepsKeyed(s: State, events: seq<Event>)
    requires Keyed(s)
    ensures Keyed(Run(s, events))
    decreases |events|
  {
    if events != [] {
      StepKeepsKeyed(s, events[0]);
      RunKeepsKeyed(Step(s, events[0]).state, events[1..]);
    }
  }

  /** The message names no registered launcher where the handler insists on one. */
  predicate Unregistered(s: State, e: Event) {
    e.Control? && !e.msg.Hello? &&
    var place := Addressed(e.source, e.msg);
    place.Some? && At(s, place.value).None?
  }

  /** A launcher asks the wallet for funding and the wallet's transaction builder fails. */
  predicate WalletBreaks(s: State, e: Event) {
    && e.Control? && e.msg.ConstructFunding? && e.backend.funding.Broken?
    && var l := At(s, Creating(e.source)); l.Some? && l.value.Negotiating?
  }

  lemma DrivePanics(s: State, place: Place, l: ChannelLauncher, source: ServiceId, msg: CtlMsg, backend: Backend)
    requires Fits(place, l, s.pending) && Addressed(source, msg) == Some(place)
    ensures Drive(s, place, l, source, msg, backend).status == Panic <==>
            msg.ConstructFunding? && l.Negotiating? && backend.funding.Broken?
    ensures Drive(s, place, l, source, msg, backend).status == Panic <==>
            Next(l, source, msg, s.params, s.pending, backend).outcome.Panicked?
  {
    NextFits(s, place, l, source, msg, backend);
  }

  /** In every keyed state lnpd panics exactly on messages naming no registered launcher and on
      funding requests that break the wallet: none of its other `expect` and `panic!` sites can
      fire. */
  lemma PanicsExactlyWhen(s: State, e: Event)
    requires Keyed(s)
    ensures Step(s, e).status == Panic <==> Unregistered(s, e) || WalletBreaks(s, e)
  {
    if e.Control? && Addressed(e.source, e.msg).Some? {
      var place := Addressed(e.source, e.msg).value;
      if At(s, place).Some? {
        var s0 := Greeted(s, e.source, e.msg);
        ControlDrives(s, e.source, e.msg, e.backend, place);
        DrivePanics(s0, place, At(s, place).value, EventSource(e.source, e.msg), e.msg, e.backend);
      } else {
        UndrivenPanics(s, e.source, e.msg, e.backend, place);
      }
    }
  }

  lemma UndrivenPanics(s: State, source: ServiceId, msg: CtlMsg, backend: Backend, place: Place)
    requires Addressed(source, msg) == Some(place) && At(s, place).None?
    ensures HandleCtl(s, source, msg, backend).status == Panic <==> !msg.Hello?
  {
    assert At(Greeted(s, source, msg), place) == At(s, place);
  }

  /** The messages each state of a launcher waits for. */
  predicate Expects(l: ChannelLauncher, msg: CtlMsg) {
    match l
    case Init(_, _, _) => msg.Hello? || msg.Keyset?
    case Deriving(_, _, _) => msg.Keyset?
    case Launching(_, _, _, _) => msg.Hello?
    case Negotiating(_, _) => msg.ConstructFunding?
    case Committing(_, _, _) => msg.Hello? || msg.PublishFunding?
    case Signing(_, _, _) => msg.Signed?
  }

  /** The launcher at a message's place fails: the message is not one it waits for, the wallet
      declines, or the network does. Failing on an error reply is not reported. */
  predicate LauncherFails(l: ChannelLauncher, msg: CtlMsg, backend: Backend) {
    && !msg.Error? && !msg.EsbError?
    && (!Expects(l, msg) || (msg.ConstructFunding? && backend.funding.Declined?) || (msg.Signed? && !backend.broadcastOk))
  }

  lemma DriveFails(s: State, place: Place, l: ChannelLauncher, source: ServiceId, msg: CtlMsg, backend: Backend)
    requires Fits(place, l, s.pending) && Addressed(source, msg) == Some(place) && !msg.Error? && !msg.EsbError?
    ensures Drive(s, place, l, source, msg, backend).status == Err <==> LauncherFails(l, msg, backend)
  {
    LauncherErrs(place, l, source, msg, s.params, s.pending, backend);
    NextFits(s, place, l, source, msg, backend);
  }

  lemma LauncherErrs(place: Place, l: ChannelLauncher, source: ServiceId, msg: CtlMsg, params: ChannelParams,
                     pending: Table, backend: Backend)
    requires Fits(place, l, pending) && Addressed(source, msg) == Some(place) && !msg.Error? && !msg.EsbError?
    ensures Next(l, source, msg, params, pending, backend).outcome.Errored? <==> LauncherFails(l, msg, backend)
  {
  }

  /** lnpd reports an error exactly on messages it has no handler for and on those that make the
      launcher they are about fail. */
  lemma ErrsExactlyWhen(s: State, source: ServiceId, msg: CtlMsg, backend: Backend)
    requires Keyed(s)
    ensures
      var place := Addressed(source, msg);
      HandleCtl(s, source, msg, backend).status == Err <==>
        if place.None? then !msg.Report? && !msg.ChannelUpdate?
        else At(s, place.value).Some? && LauncherFails(At(s, place.value).value, msg, backend)
  {
    var place := Addressed(source, msg);
    if place.Some? && At(s, place.value).Some? {
      ControlDrives(s, source, msg, backend, place.value);
      ErrorReplies(s, source, msg, backend, place.value);
    } else if place.Some? {
      assert At(Greeted(s, source, msg), place.value) == At(s, place.value);
    }
  }

  lemma ErrorReplies(s: State, source: ServiceId, msg: CtlMsg, backend: Backend, place: Place)
    requires Keyed(s) && Addressed(source, msg) == Some(place) && At(s, place).Some?
    ensures Drive(Greeted(s, source, msg), place, At(s, place).value, EventSource(source, msg), msg, backend).status == Err
            <==> LauncherFails(At(s, place).value, msg, backend)
  {
    var l := At(s, place).value;
    assert Fits(place, l, s.pending);
    if !msg.Error? && !msg.EsbError? {
      DriveFails(Greeted(s, source, msg), place, l, source, msg, backend);
    }
  }

  /** A peer daemon that greets is connected from then on, and no longer waited for. */
  lemma PeerGreets(s: State, node: NodeId, bolt: bool, backend: Backend)
    requires var source := if bolt then PeerBolt(node) else PeerBifrost(node);
      source !in s.creating && source !in s.accepting && source !in s.reestablishing
    ensures
      var source := if bolt then PeerBolt(node) else PeerBifrost(node);
      HandleCtl(s, source, Hello, backend) ==
        Quiet(s.(bolt := if bolt then s.bolt + {node} else s.bolt,
                 bifrost := if bolt then s.bifrost else s.bifrost + {node},
                 spawning := s.spawning - {source}))
  {
    var source := if bolt then PeerBolt(node) else PeerBifrost(node);
    assert At(Register(s, source), Creating(source)).None?;
  }

  /** A signed funding transaction that reaches a launcher is always the one it waits for. */
  lemma SignedTxidNeverChanges(s: State, source: ServiceId, psbt: Psbt, backend: Backend)
    requires Keyed(s) && psbt.txid in s.funding
    ensures
      var t := Next(s.funding[psbt.txid], source, Signed(psbt), s.params, s.pending, backend);
      && t.outcome == (if backend.broadcastOk then Finished else Errored(Publishing))
      && (backend.broadcastOk ==> t.broadcast == Some(psbt))
  {
    assert At(s, FundingAt(psbt.txid)) == Some(s.funding[psbt.txid]);
  }

  // ---------- The daemon as an object ----------

  /** The running broker, whose maps the handlers update in place: a launcher is taken out of
      its map, driven, and inserted under its new key. */
  class Runtime {
    var creating: map<ServiceId, ChannelLauncher>
    var funding: map<Slice32, ChannelLauncher>
    var accepting: map<ServiceId, AcceptChannelFrom>
    var reestablishing: map<ServiceId, (NodeId, Slice32)>
    var spawning: map<ServiceId, ClientId>
    var channels: set<Slice32>
    var bolt: set<NodeId>
    var bifrost: set<NodeId>
    var pending: Table
    const params: ChannelParams

    ghost function View(): State
      reads this
    {
      State(creating, funding, accepting, reestablishing, spawning, channels, bolt, bifrost, pending, params)
    }

    constructor (params: ChannelParams)
      ensures View() == State(map[], map[], map[], map[], map[], {}, {}, {}, map[], params)
      ensures Keyed(View())
    {
      this.params := params;
      creating, funding, accepting, reestablishing, spawning := map[], map[], map[], map[], map[];
      channels, bolt, bifrost, pending := {}, {}, {}, map[];
    }

    method RegisterDaemon(source: ServiceId)
      modifies `channels, `bolt, `bifrost
      ensures View() == Register(old(View()), source)
    {
      match source
      case PeerBolt(node) => bolt := bolt + {node};
      case PeerBifrost(node) => bifrost := bifrost + {node};
      case Channel(id) => channels := channels + {id};
      case _ =>
    }

    method Rename(oldId: Slice32, newId: Slice32) returns (known: bool)
      modifies `channels
      ensures View() == UpdateChannelId(old(View()), oldId, newId)
      ensures known <==> oldId in old(channels)
    {
      known := oldId in channels;
      channels := channels - {oldId};
      channels := channels + {newId};
    }

    /** Drives a launcher already taken out of its map; the wallet and the set of channels
        change with it. */
    method Advance(l: ChannelLauncher, source: ServiceId, msg: CtlMsg, backend: Backend) returns (t: Transition)
      modifies `pending, `channels
      ensures t == Next(l, source, msg, params, old(pending), backend)
      ensures View() == Absorb(old(View()), l, t)
    {
      t := Next(l, source, msg, params, pending, backend);
      if t.reserved.Some? {
        var psbt := t.reserved.value;
        pending := Reserve(pending, l.Id(), psbt);
        var _ := Rename(l.Id(), ChannelIdWith(psbt.txid, psbt.vout));
      }
    }

    method Greet(source: ServiceId, backend: Backend) returns (sends: seq<Envelope>, status: Status)
      modifies this
      ensures
        var effect := HandleCtl(old(View()), source, Hello, backend);
        && status == effect.status
        && (status != Panic ==> View() == effect.state && sends == effect.sends && effect.broadcast == None)
    {
      RegisterDaemon(source);
      sends, status := [], Ok;
      if source in creating {
        var l := creating[source];
        ControlDrives(old(View()), source, Hello, backend, Creating(source));
        creating := creating - {source};
        var t := Advance(l, source, Hello, backend);
        sends := t.sends;
        match t.outcome
        case Became(l') => creating := creating[source := l'];
        case Finished =>
        case Errored(_) => status := Err;
        case Panicked => status := Panic;
      } else if source in accepting {
        sends := [Envelope(LnpBroker, source, Ctl(AcceptFrom(accepting[source])))];
        accepting := accepting - {source};
      } else if source in reestablishing {
        var (remote, id) := reestablishing[source];
        reestablishing := reestablishing - {source};
        sends := [Envelope(PeerBolt(remote), source, Bolt(ChannelReestablish(id)))];
      } else if source in spawning {
        spawning := spawning - {source};
      } else {
        assert spawning - {source} == spawning;
      }
    }

    /** The handlers that take a launcher out of `creating` and insist on finding it. */
    method Continue(key: ServiceId, source: ServiceId, msg: CtlMsg, backend: Backend)
      returns (sends: seq<Envelope>, status: Status)
      requires msg.Keyset? || msg.ConstructFunding? || msg.PublishFunding?
      requires Addressed(source, msg) == Some(Creating(key))
      modifies this
      ensures
        var effect := HandleCtl(old(View()), source, msg, backend);
        && status == effect.status
        && (status != Panic ==> View() == effect.state && sends == effect.sends && effect.broadcast == None)
    {
      sends, status := [], Panic;
      if key !in creating {
        return;
      }
      var l := creating[key];
      ControlDrives(View(), source, msg, backend, Creating(key));
      creating := creating - {key};
      var t := Advance(l, source, msg, backend);
      sends := t.sends;
      assert t.broadcast.None? by {
        OnlySignedBroadcasts(l, source, msg, params, old(pending), backend);
      }
      if t.outcome.Errored? {
        status := Err;
      } else if t.outcome.Became? {
        var l' := t.outcome.launcher;
        if msg.Keyset? {
          creating := creating[key := l'];
          status := Ok;
        } else if msg.ConstructFunding? {
          creating := creating[Channel(l'.Id()) := l'];
          status := Ok;
        } else if l'.FundingTxid().Some? {
          funding := funding[l'.FundingTxid().value := l'];
          status := Ok;
        }
      }
    }

    method Publish(source: ServiceId, psbt: Psbt, backend: Backend)
      returns (broadcast: Option<Psbt>, status: Status)
      modifies this
      requires Keyed(View())
      ensures
        var effect := HandleCtl(old(View()), source, Signed(psbt), backend);
        && status == effect.status
        && (status != Panic ==> View() == effect.state && effect.sends == [] && broadcast == effect.broadcast)
    {
      broadcast, status := None, Panic;
      assert Keyed(View());
      if psbt.txid in funding {
        var l := funding[psbt.txid];
        assert At(View(), FundingAt(psbt.txid)) == Some(l);
        funding := funding - {psbt.txid};
        var t := Advance(l, source, Signed(psbt), backend);
        broadcast := t.broadcast;
        status := if t.outcome.Finished? then Ok else Err;
      }
    }

    method CreateFor(temp: Slice32, request: CreateChannel, client: ClientId) returns (sends: seq<Envelope>)
      modifies `creating
      ensures
        var effect := Create(old(View()), temp, request, client);
        View() == effect.state && sends == effect.sends
    {
      sends := [Envelope(LnpBroker, Signer, Ctl(DeriveKeyset(temp)))];
      var launcher := Init(temp, request, client);
      creating := creating[Channel(launcher.Id()) := launcher];
    }

    /** All control messages, in every keyed state: the maps stay keyed, and only a message
        naming no registered launcher or a broken wallet makes the daemon panic. */
    method Dispatch(source: ServiceId, msg: CtlMsg, backend: Backend)
      returns (sends: seq<Envelope>, broadcast: Option<Psbt>, status: Status)
      requires Keyed(View())
      modifies this
      ensures
        var effect := HandleCtl(old(View()), source, msg, backend);
        && status == effect.status
        && (status != Panic ==> View() == effect.state && sends == effect.sends && broadcast == effect.broadcast)
      ensures status == Panic <==>
                Unregistered(old(View()), Control(source, msg, backend)) || WalletBreaks(old(View()), Control(source, msg, backend))
      ensures status != Panic ==> Keyed(View())
    {
      ghost var before := View();
      sends, broadcast, status := Handle(source, msg, backend);
      StepKeepsKeyed(before, Control(source, msg, backend));
      PanicsExactlyWhen(before, Control(source, msg, backend));
    }

    method Handle(source: ServiceId, msg: CtlMsg, backend: Backend)
      returns (sends: seq<Envelope>, broadcast: Option<Psbt>, status: Status)
      requires Keyed(View())
      modifies this
      ensures
        var effect := HandleCtl(old(View()), source, msg, backend);
        && status == effect.status
        && (status != Panic ==> View() == effect.state && sends == effect.sends && broadcast == effect.broadcast)
    {
      sends, broadcast, status := [], None, Ok;
      match msg
      case Hello =>
        sends, status := Greet(source, backend);
      case Keyset(service, _) =>
        sends, status := Continue(service, source, msg, backend);
      case ConstructFunding(_) | PublishFunding =>
        sends, status := Continue(source, source, msg, backend);
      case Signed(psbt) =>
        broadcast, status := Publish(source, psbt, backend);
      case Error(destination) =>
        status := Abandon(source, destination, msg, backend);
      case EsbError(destination) =>
        status := Abandon(source, destination, msg, backend);
      case _ =>
        status := Note(source, msg, backend);
    }

    /** Messages about no launcher. */
    method Note(source: ServiceId, msg: CtlMsg, backend: Backend) returns (status: Status)
      requires Addressed(source, msg).None?
      modifies this
      ensures HandleCtl(old(View()), source, msg, backend) == Effect(View(), [], None, None, status)
    {
      status := Ok;
      match msg
      case Report(_) =>
      case ChannelUpdate(oldId, newId) =>
        var _ := Rename(oldId, newId);
      case _ =>
        status := Err;
    }

    /** An error reply drops the launcher it is about. */
    method Abandon(source: ServiceId, destination: ServiceId, msg: CtlMsg, backend: Backend) returns (status: Status)
      requires Keyed(View()) && (msg == Error(destination) || msg == EsbError(destination))
      modifies this
      ensures
        var effect := HandleCtl(old(View()), source, msg, backend);
        && status == effect.status && effect.sends == [] && effect.broadcast == None
        && (status != Panic ==> View() == effect.state)
    {
      status := Panic;
      if destination in creating {
        assert At(View(), Creating(destination)) == Some(creating[destination]);
        var l := creating[destination];
        ControlDrives(View(), source, msg, backend, Creating(destination));
        creating := creating - {destination};
        var _ := Advance(l, destination, msg, backend);
        status := Ok;
      }
    }
  }
}
