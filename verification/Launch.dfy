/** The state machine by which lnpd launches a channel daemon for a locally created channel. */
module Launch {
  import opened Types
  import opened Reservations

  datatype ChannelLauncher =
    | Init(temp: Slice32, request: CreateChannel, enquirer: ClientId)
    | Launching(temp: Slice32, request: CreateChannel, enquirer: ClientId, keys: LocalKeyset)
    | Deriving(temp: Slice32, request: CreateChannel, enquirer: ClientId)
    | Negotiating(temp: Slice32, enquirer: ClientId)
    | Committing(channelId: Slice32, txid: Slice32, enquirer: ClientId)
    | Signing(channelId: Slice32, txid: Slice32, enquirer: ClientId)
  {
    /** Current id of the daemon being launched. */
    function Id(): Slice32 {
      if Committing? || Signing? then channelId else temp
    }

    function FundingTxid(): Option<Slice32> {
      if Committing? || Signing? then Some(txid) else None
    }
  }

  /** What comes of asking the wallet for a funding: the PSBT it built, a refusal, or a failure
      of the transaction builder, on which the wallet, and lnpd with it, panics. */
  datatype WalletAnswer = Funded(psbt: Psbt) | Declined | Broken

  /** Answers of the wallet and of the network that a published transaction is given to. */
  datatype Backend = Backend(funding: WalletAnswer, broadcastOk: bool)

  datatype LaunchError =
    | UnexpectedMessage
    | SignedTxidChanged(unsignedTxid: Slice32, signedTxid: Slice32)
    | Funding
    | Publishing

  datatype Outcome =
    | Became(launcher: ChannelLauncher)
    | Finished
    | Errored(error: LaunchError)
    | Panicked

  /** Result of one event: what becomes of the launcher, the messages it sends, the funding it
      reserved and the transaction it handed to the network. */
  datatype Transition = Transition(
    outcome: Outcome, sends: seq<Envelope>, reserved: Option<Psbt>, broadcast: Option<Psbt>)

  function Fail(error: LaunchError): Transition {
    Transition(Errored(error), [], None, None)
  }

  function Silent(l: ChannelLauncher): Transition {
    Transition(Became(l), [], None, None)
  }

  function Or<T>(o: Option<T>, default: T): T {
    if o.Some? then o.value else default
  }

  /** The node defaults with the overrides of the request. */
  function ApplyParams(r: CreateChannel, p: ChannelParams): (CommonParams, PeerParams) {
    (CommonParams(Or(r.feeRate, p.common.feeratePerKw),
                  Or(r.announceChannel, p.common.announceChannel),
                  Or(r.channelType, p.common.channelType)),
     PeerParams(Or(r.dustLimit, p.local.dustLimit),
                Or(r.toSelfDelay, p.local.toSelfDelay),
                Or(r.htlcMaxCount, p.local.maxAcceptedHtlcs),
                Or(r.htlcMinValue, p.local.htlcMinimumMsat),
                Or(r.htlcMaxTotalValue, p.local.maxHtlcValueInFlightMsat),
                Or(r.channelReserve, p.local.channelReserve)))
  }

  /** Each override changes its own parameter and no other; without any the defaults stand. */
  lemma OverridesAreSeparate(r: CreateChannel, p: ChannelParams, n: nat, b: bool)
    requires r == CreateChannel(r.remotePeer, r.reportTo, r.fundingSat, r.pushMsat,
                                None, None, None, None, None, None, None, None, None)
    ensures ApplyParams(r, p) == (p.common, p.local)
    ensures ApplyParams(r.(feeRate := Some(n)), p) == (p.common.(feeratePerKw := n), p.local)
    ensures ApplyParams(r.(announceChannel := Some(b)), p) == (p.common.(announceChannel := b), p.local)
    ensures ApplyParams(r.(channelType := Some(n)), p) == (p.common.(channelType := n), p.local)
    ensures ApplyParams(r.(dustLimit := Some(n)), p) == (p.common, p.local.(dustLimit := n))
    ensures ApplyParams(r.(toSelfDelay := Some(n)), p) == (p.common, p.local.(toSelfDelay := n))
    ensures ApplyParams(r.(htlcMaxCount := Some(n)), p) == (p.common, p.local.(maxAcceptedHtlcs := n))
    ensures ApplyParams(r.(htlcMinValue := Some(n)), p) == (p.common, p.local.(htlcMinimumMsat := n))
    ensures ApplyParams(r.(htlcMaxTotalValue := Some(n)), p) == (p.common, p.local.(maxHtlcValueInFlightMsat := n))
    ensures ApplyParams(r.(channelReserve := Some(n)), p) == (p.common, p.local.(channelReserve := n))
  {
  }

  function Proposal(r: CreateChannel, p: ChannelParams, keys: LocalKeyset): OpenChannelWith {
    var (common, local) := ApplyParams(r, p);
    OpenChannelWith(r.remotePeer, r.reportTo, r.fundingSat, r.pushMsat, p.policy, common, local, keys)
  }

  /** Replies to whoever sent the event: the source is not always the channel daemon. */
  function StartNegotiation(source: ServiceId, params: ChannelParams, temp: Slice32,
                            keys: LocalKeyset, request: CreateChannel, enquirer: ClientId): Transition
  {
    Transition(Became(Negotiating(temp, enquirer)),
               [Envelope(LnpBroker, source, Ctl(OpenWith(Proposal(request, params, keys))))],
               None, None)
  }

  function CompleteNegotiation(source: ServiceId, msg: CtlMsg, backend: Backend,
                               temp: Slice32, enquirer: ClientId): Transition
  {
    if !msg.ConstructFunding? then Fail(UnexpectedMessage)
    else if backend.funding.Broken? then Transition(Panicked, [], None, None)
    else if backend.funding.Declined? then Fail(Funding)
    else
      var psbt := backend.funding.psbt;
      Transition(Became(Committing(ChannelIdWith(psbt.txid, psbt.vout), psbt.txid, enquirer)),
                 [Envelope(LnpBroker, source, Ctl(FundingConstructed(psbt)))],
                 Some(psbt), None)
  }

  function CompleteCommitment(source: ServiceId, msg: CtlMsg, pending: Table,
                              txid: Slice32, enquirer: ClientId): Transition
  {
    if !msg.PublishFunding? then Fail(UnexpectedMessage)
    else if !source.Channel? || txid !in pending then Transition(Panicked, [], None, None)
    else
      Transition(Became(Signing(source.id, txid, enquirer)),
                 [Envelope(LnpBroker, Signer, Ctl(Sign(pending[txid].psbt)))],
                 None, None)
  }

  function CompleteSignatures(msg: CtlMsg, backend: Backend, txid: Slice32): Transition {
    if !msg.Signed? then Fail(UnexpectedMessage)
    else if msg.psbt.txid != txid then Fail(SignedTxidChanged(txid, msg.psbt.txid))
    else if !backend.broadcastOk then Fail(Publishing)
    else Transition(Finished, [], None, Some(msg.psbt))
  }

  /** One event of the launcher. */
  function Next(l: ChannelLauncher, source: ServiceId, msg: CtlMsg,
                params: ChannelParams, pending: Table, backend: Backend): Transition
  {
    if msg.Error? then Transition(Finished, [], None, None)
    else match l
      case Init(temp, request, enquirer) =>
        if msg.Hello? then Silent(Deriving(temp, request, enquirer))
        else if msg.Keyset? then Silent(Launching(temp, request, enquirer, msg.keys))
        else Fail(UnexpectedMessage)
      case Deriving(temp, request, enquirer) =>
        if msg.Keyset? then StartNegotiation(source, params, temp, msg.keys, request, enquirer)
        else Fail(UnexpectedMessage)
      case Launching(temp, request, enquirer, keys) =>
        if msg.Hello? then StartNegotiation(source, params, temp, keys, request, enquirer)
        else Fail(UnexpectedMessage)
      case Negotiating(temp, enquirer) =>
        CompleteNegotiation(source, msg, backend, temp, enquirer)
      case Committing(_, txid, enquirer) =>
        if msg.Hello? then Silent(l)
        else CompleteCommitment(source, msg, pending, txid, enquirer)
      case Signing(_, txid, _) =>
        CompleteSignatures(msg, backend, txid)
  }

  /** Feeds a launcher a list of events, collecting what it sends; an event that does not yield
      a launcher ends the run. */
  function Feed(l: ChannelLauncher, events: seq<(ServiceId, CtlMsg)>, params: ChannelParams,
                pending: Table, backend: Backend): (Option<ChannelLauncher>, seq<Envelope>)
    decreases |events|
  {
    if events == [] then (Some(l), [])
    else
      var t := Next(l, events[0].0, events[0].1, params, pending, backend);
      if !t.outcome.Became? then (None, t.sends)
      else
        var (rest, sends) := Feed(t.outcome.launcher, events[1..], params, pending, backend);
        (rest, t.sends + sends)
  }

  /** The two orders in which the daemon's Hello and the derived keyset can arrive meet in the
      same state and propose the same channel; but the proposal goes to the channel daemon in
      one order and to the signer in the other. */
  lemma LaunchDiamond(temp: Slice32, request: CreateChannel, enquirer: ClientId, keys: LocalKeyset,
                      params: ChannelParams, pending: Table, backend: Backend)
    ensures
      var hello := (Channel(temp), Hello);
      var keyset := (Signer, Keyset(Channel(temp), keys));
      var launcher := Init(temp, request, enquirer);
      var proposal := Ctl(OpenWith(Proposal(request, params, keys)));
      && Feed(launcher, [keyset, hello], params, pending, backend)
         == (Some(Negotiating(temp, enquirer)), [Envelope(LnpBroker, Channel(temp), proposal)])
      && Feed(launcher, [hello, keyset], params, pending, backend)
         == (Some(Negotiating(temp, enquirer)), [Envelope(LnpBroker, Signer, proposal)])
    ensures SaysAll(Proposal(request, params, keys), request, params, keys)
  {
    var hello := (Channel(temp), Hello);
    var keyset := (Signer, Keyset(Channel(temp), keys));
    assert [keyset, hello][1..] == [hello] && [hello, keyset][1..] == [keyset];
    OverridesChosen(request, params, keys);
    FeedOne(Launching(temp, request, enquirer, keys), hello, params, pending, backend);
    FeedOne(Deriving(temp, request, enquirer), keyset, params, pending, backend);
  }

  lemma FeedOne(l: ChannelLauncher, event: (ServiceId, CtlMsg), params: ChannelParams,
                pending: Table, backend: Backend)
    requires Next(l, event.0, event.1, params, pending, backend).outcome.Became?
    ensures
      var t := Next(l, event.0, event.1, params, pending, backend);
      && Feed(l, [event], params, pending, backend) == (Some(t.outcome.launcher), t.sends)
      && [] + t.sends == t.sends
  {
    var t := Next(l, event.0, event.1, params, pending, backend);
    assert [event][1..] == [];
    assert t.sends + [] == t.sends;
  }

  /** A parameter of the channel: what the client asked for, or else the node's default. */
  predicate Chosen<T(==)>(value: T, asked: Option<T>, default: T) {
    (asked.Some? ==> value == asked.value) && (asked.None? ==> value == default)
  }

  /** What a channel daemon has to be told, field by field. */
  predicate SaysAll(o: OpenChannelWith, r: CreateChannel, p: ChannelParams, keys: LocalKeyset) {
    && o.remotePeer == r.remotePeer && o.reportTo == r.reportTo
    && o.fundingSat == r.fundingSat && o.pushMsat == r.pushMsat
    && o.policy == p.policy && o.localKeys == keys
    && Chosen(o.common.feeratePerKw, r.feeRate, p.common.feeratePerKw)
    && Chosen(o.common.announceChannel, r.announceChannel, p.common.announceChannel)
    && Chosen(o.common.channelType, r.channelType, p.common.channelType)
    && Chosen(o.local.dustLimit, r.dustLimit, p.local.dustLimit)
    && Chosen(o.local.toSelfDelay, r.toSelfDelay, p.local.toSelfDelay)
    && Chosen(o.local.maxAcceptedHtlcs, r.htlcMaxCount, p.local.maxAcceptedHtlcs)
    && Chosen(o.local.htlcMinimumMsat, r.htlcMinValue, p.local.htlcMinimumMsat)
    && Chosen(o.local.maxHtlcValueInFlightMsat, r.htlcMaxTotalValue, p.local.maxHtlcValueInFlightMsat)
    && Chosen(o.local.channelReserve, r.channelReserve, p.local.channelReserve)
  }

  /** The transition sends one message, a proposal to `dest` that says all. */
  predicate Proposes(t: Transition, dest: ServiceId, r: CreateChannel, p: ChannelParams, keys: LocalKeyset) {
    && |t.sends| == 1 && t.sends[0].source == LnpBroker && t.sends[0].dest == dest
    && t.sends[0].msg.Ctl? && t.sends[0].msg.ctl.OpenWith?
    && SaysAll(t.sends[0].msg.ctl.open, r, p, keys)
  }

  lemma OverridesChosen(r: CreateChannel, p: ChannelParams, keys: LocalKeyset)
    ensures SaysAll(Proposal(r, p, keys), r, p, keys)
  {
  }

  /** Whichever of greeting and keyset comes second, the launcher proposes the channel as the
      client asked for it, with the node's values where the client gave none, and with the keys
      that were derived. */
  lemma GreetingProposes(temp: Slice32, request: CreateChannel, enquirer: ClientId, keys: LocalKeyset, source: ServiceId,
                         params: ChannelParams, pending: Table, backend: Backend)
    ensures
      var t := Next(Launching(temp, request, enquirer, keys), source, Hello, params, pending, backend);
      t.outcome == Became(Negotiating(temp, enquirer)) && Proposes(t, source, request, params, keys)
  {
    OverridesChosen(request, params, keys);
  }

  lemma KeysetProposes(temp: Slice32, request: CreateChannel, enquirer: ClientId, keys: LocalKeyset, source: ServiceId,
                       service: ServiceId, params: ChannelParams, pending: Table, backend: Backend)
    ensures
      var t := Next(Deriving(temp, request, enquirer), source, Keyset(service, keys), params, pending, backend);
      t.outcome == Became(Negotiating(temp, enquirer)) && Proposes(t, source, request, params, keys)
  {
    OverridesChosen(request, params, keys);
  }
}
