/** What lnpd does with each message of the channel-opening protocol when its launcher is in the
    state that expects it, and when the greeting comes too early. */
module LnpdSteps {
  import opened Types
  import opened Reservations
  import opened Launch
  import opened Lnpd

  lemma Rekey<K, V>(m: map<K, V>, k: K, v: V)
    ensures (m - {k})[k := v] == m[k := v]
  {
  }

  lemma KeysetInInit(s: State, temp: Slice32, request: CreateChannel, client: ClientId,
                     keys: LocalKeyset, backend: Backend)
    requires Channel(temp) in s.creating && s.creating[Channel(temp)] == Init(temp, request, client)
    ensures HandleCtl(s, Signer, Keyset(Channel(temp), keys), backend) ==
            Quiet(s.(creating := s.creating[Channel(temp) := Launching(temp, request, client, keys)]))
  {
    ControlDrives(s, Signer, Keyset(Channel(temp), keys), backend, Creating(Channel(temp)));
    Rekey(s.creating, Channel(temp), Launching(temp, request, client, keys));
  }

  lemma HelloInLaunching(s: State, temp: Slice32, request: CreateChannel, client: ClientId,
                         keys: LocalKeyset, backend: Backend)
    requires Channel(temp) in s.creating && s.creating[Channel(temp)] == Launching(temp, request, client, keys)
    ensures HandleCtl(s, Channel(temp), Hello, backend) ==
            Effect(Register(s, Channel(temp)).(creating := s.creating[Channel(temp) := Negotiating(temp, client)]),
                   [Envelope(LnpBroker, Channel(temp), Ctl(OpenWith(Proposal(request, s.params, keys))))],
                   None, None, Ok)
  {
    ControlDrives(s, Channel(temp), Hello, backend, Creating(Channel(temp)));
    Rekey(s.creating, Channel(temp), Negotiating(temp, client));
  }

  lemma FundingInNegotiating(s: State, temp: Slice32, client: ClientId, fund: FundChannel, backend: Backend)
    requires Channel(temp) in s.creating && s.creating[Channel(temp)] == Negotiating(temp, client)
    requires backend.funding.Funded?
    ensures
      var psbt := backend.funding.psbt;
      var id := ChannelIdWith(psbt.txid, psbt.vout);
      HandleCtl(s, Channel(temp), ConstructFunding(fund), backend) ==
        Effect(UpdateChannelId(s, temp, id).(
                 pending := Reserve(s.pending, temp, psbt),
                 creating := (s.creating - {Channel(temp)})[Channel(id) := Committing(id, psbt.txid, client)]),
               [Envelope(LnpBroker, Channel(temp), Ctl(FundingConstructed(psbt)))],
               None, None, Ok)
  {
    ControlDrives(s, Channel(temp), ConstructFunding(fund), backend, Creating(Channel(temp)));
  }

  lemma HelloInCommitting(s: State, id: Slice32, txid: Slice32, client: ClientId, backend: Backend)
    requires Channel(id) in s.creating && s.creating[Channel(id)] == Committing(id, txid, client)
    ensures HandleCtl(s, Channel(id), Hello, backend) == Quiet(Register(s, Channel(id)))
  {
    ControlDrives(s, Channel(id), Hello, backend, Creating(Channel(id)));
    Rekey(s.creating, Channel(id), Committing(id, txid, client));
    assert s.creating[Channel(id) := Committing(id, txid, client)] == s.creating;
  }

  lemma PublishInCommitting(s: State, id: Slice32, txid: Slice32, client: ClientId, backend: Backend)
    requires Channel(id) in s.creating && s.creating[Channel(id)] == Committing(id, txid, client)
    requires txid in s.pending
    ensures HandleCtl(s, Channel(id), PublishFunding, backend) ==
            Effect(s.(creating := s.creating - {Channel(id)}, funding := s.funding[txid := Signing(id, txid, client)]),
                   [Envelope(LnpBroker, Signer, Ctl(Sign(s.pending[txid].psbt)))],
                   None, None, Ok)
  {
    ControlDrives(s, Channel(id), PublishFunding, backend, Creating(Channel(id)));
  }

  lemma SignedInSigning(s: State, id: Slice32, txid: Slice32, client: ClientId, psbt: Psbt, backend: Backend)
    requires txid in s.funding && s.funding[txid] == Signing(id, txid, client)
    requires psbt.txid == txid && backend.broadcastOk
    ensures HandleCtl(s, Signer, Signed(psbt), backend) ==
            Effect(s.(funding := s.funding - {txid}), [], Some(psbt), None, Ok)
  {
    ControlDrives(s, Signer, Signed(psbt), backend, FundingAt(txid));
  }

  lemma HelloInInit(s: State, temp: Slice32, request: CreateChannel, client: ClientId, backend: Backend)
    requires Channel(temp) in s.creating && s.creating[Channel(temp)] == Init(temp, request, client)
    ensures HandleCtl(s, Channel(temp), Hello, backend) ==
            Quiet(Register(s, Channel(temp)).(creating := s.creating[Channel(temp) := Deriving(temp, request, client)]))
  {
    ControlDrives(s, Channel(temp), Hello, backend, Creating(Channel(temp)));
    Rekey(s.creating, Channel(temp), Deriving(temp, request, client));
  }

  /** The proposal goes to the signer. */
  lemma KeysetInDeriving(s: State, temp: Slice32, request: CreateChannel, client: ClientId,
                         keys: LocalKeyset, backend: Backend)
    requires Channel(temp) in s.creating && s.creating[Channel(temp)] == Deriving(temp, request, client)
    ensures HandleCtl(s, Signer, Keyset(Channel(temp), keys), backend) ==
            Effect(s.(creating := s.creating[Channel(temp) := Negotiating(temp, client)]),
                   [Envelope(LnpBroker, Signer, Ctl(OpenWith(Proposal(request, s.params, keys))))],
                   None, None, Ok)
  {
    ControlDrives(s, Signer, Keyset(Channel(temp), keys), backend, Creating(Channel(temp)));
    Rekey(s.creating, Channel(temp), Negotiating(temp, client));
  }

  /** An error reply about lnpd itself finds no launcher. */
  lemma ErrorAboutBroker(s: State, backend: Backend)
    requires Keyed(s)
    ensures HandleCtl(s, Signer, Error(LnpBroker), backend) == Effect(s, [], None, None, Panic)
  {
    assert At(s, Creating(LnpBroker)).None? || Fits(Creating(LnpBroker), At(s, Creating(LnpBroker)).value, s.pending);
  }

  lemma HelloFromAccepting(s: State, temp: Slice32, backend: Backend)
    requires Channel(temp) in s.accepting && Channel(temp) !in s.creating
    ensures HandleCtl(s, Channel(temp), Hello, backend) ==
            Effect(Register(s, Channel(temp)).(accepting := s.accepting - {Channel(temp)}),
                   [Envelope(LnpBroker, Channel(temp), Ctl(AcceptFrom(s.accepting[Channel(temp)])))],
                   None, None, Ok)
  {
    assert At(Register(s, Channel(temp)), Creating(Channel(temp))).None?;
  }
}
