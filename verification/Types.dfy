/** Identifiers and messages exchanged by the daemons of an LNP node. */
module Types {

  datatype Option<+T> = None | Some(value: T)

  // ---------- Identifiers ----------

  /** 32 bytes, written as their 256 bits: a transaction id, a temporary channel id or a
      permanent channel id. */
  type Slice32 = s: seq<bool> | |s| == 256 witness seq(256, _ => false)

  /** A 16-bit output index, most significant bit first. */
  type Vout = v: seq<bool> | |v| == 16 witness seq(16, _ => false)

  const FIRST_OUTPUT: Vout := [
    false, false, false, false, false, false, false, false,
    false, false, false, false, false, false, false, false]

  type U64 = x: nat | x < 0x1_0000_0000_0000_0000
  type U32 = x: nat | x < 0x1_0000_0000

  type NodeId = nat
  type ClientId = nat

  datatype OutPoint = OutPoint(txid: Slice32, vout: nat)

  /** BOLT #2, "Definition of `channel_id`": the funding txid with its last two bytes
      altered by exclusive-or with the funding output index. */
  function ChannelIdWith(txid: Slice32, vout: Vout): Slice32 {
    seq(256, i requires 0 <= i < 256 => if i < 240 then txid[i] else txid[i] != vout[i - 240])
  }

  /** The id is the txid with exactly those of its last 16 bits inverted that are set in the index;
      so a channel funded by the first output has the txid for its id. */
  lemma ChannelIdBits(txid: Slice32, vout: Vout)
    ensures forall i | 0 <= i < 256 :: ChannelIdWith(txid, vout)[i] != txid[i] <==> i >= 240 && vout[i - 240]
    ensures ChannelIdWith(txid, FIRST_OUTPUT) == txid
  {
    forall i | 0 <= i < 256
      ensures ChannelIdWith(txid, FIRST_OUTPUT)[i] == txid[i]
    {
      assert i >= 240 ==> !FIRST_OUTPUT[i - 240];
    }
  }

  /** Channels funded by different transactions at the same output never share an id. */
  lemma ChannelIdInjective(x: Slice32, y: Slice32, vout: Vout)
    requires ChannelIdWith(x, vout) == ChannelIdWith(y, vout)
    ensures x == y
  {
    forall i | 0 <= i < 256
      ensures x[i] == y[i]
    {
      assert ChannelIdWith(x, vout)[i] == ChannelIdWith(y, vout)[i];
    }
  }

  /** At different outputs they can: the reason why the funding output index is fixed. */
  lemma ChannelIdCollision(x: Slice32, v: Vout, w: Vout)
    requires v != w
    ensures exists y: Slice32 :: x != y && ChannelIdWith(x, v) == ChannelIdWith(y, w)
  {
    var y := ChannelIdWith(ChannelIdWith(x, v), w);
    assert ChannelIdWith(y, w) == ChannelIdWith(x, v);
    var k :| 0 <= k < 16 && v[k] != w[k];
    assert x[240 + k] != y[240 + k];
  }

  /** Identities of the daemons on the message buses. `Other` stands for the loopback and the
      message-application services, which take no part in channel opening. */
  datatype ServiceId =
    | LnpBroker
    | Watch
    | Router
    | Signer
    | PeerBolt(node: NodeId)
    | PeerBifrost(node: NodeId)
    | Channel(id: Slice32)
    | Client(client: ClientId)
    | Other(name: string)

  // ---------- Channel parameters ----------

  datatype CommonParams = CommonParams(feeratePerKw: nat, announceChannel: bool, channelType: nat)

  datatype PeerParams = PeerParams(
    dustLimit: nat,
    toSelfDelay: nat,
    maxAcceptedHtlcs: nat,
    htlcMinimumMsat: nat,
    maxHtlcValueInFlightMsat: nat,
    channelReserve: nat)

  /** Node-wide defaults: policy, common and local parameters. */
  datatype ChannelParams = ChannelParams(policy: nat, common: CommonParams, local: PeerParams)

  /** Client request to create a channel, with optional overrides of the node defaults. */
  datatype CreateChannel = CreateChannel(
    remotePeer: NodeId,
    reportTo: Option<ClientId>,
    fundingSat: U64,
    pushMsat: nat,
    feeRate: Option<nat>,
    announceChannel: Option<bool>,
    channelType: Option<nat>,
    dustLimit: Option<nat>,
    toSelfDelay: Option<nat>,
    htlcMaxCount: Option<nat>,
    htlcMinValue: Option<nat>,
    htlcMaxTotalValue: Option<nat>,
    channelReserve: Option<nat>)

  type LocalKeyset = nat

  datatype OpenChannelWith = OpenChannelWith(
    remotePeer: NodeId,
    reportTo: Option<ClientId>,
    fundingSat: U64,
    pushMsat: nat,
    policy: nat,
    common: CommonParams,
    local: PeerParams,
    localKeys: LocalKeyset)

  datatype AcceptChannelFrom = AcceptChannelFrom(
    remoteId: NodeId, policy: nat, common: CommonParams, local: PeerParams, temp: Slice32)

  datatype FundChannel = FundChannel(scriptPubkey: string, amount: U64, feeratePerKw: Option<U32>)

  /** The part of a PSBT that the node looks at: the id of its unsigned transaction, the
      outpoints it spends, the output marked as channel funding, the change derivation index
      and the fee. Adding signatures changes only `signed`. */
  datatype Psbt = Psbt(
    txid: Slice32, inputs: seq<OutPoint>, vout: Vout, changeIndex: nat, fee: nat, signed: bool)

  // ---------- Messages ----------

  datatype CtlMsg =
    | Hello
    | OpenWith(open: OpenChannelWith)
    | AcceptFrom(accept: AcceptChannelFrom)
    | ConstructFunding(fund: FundChannel)
    | FundingConstructed(psbt: Psbt)
    | PublishFunding
    | Track(txid: Slice32, depth: nat)
    | Untrack(txid: Slice32)
    | TxFound(txid: Slice32)
    | ChannelCreated(channelId: Slice32)
    | Sign(psbt: Psbt)
    | Signed(psbt: Psbt)
    | DeriveKeyset(slice: Slice32)
    | Keyset(service: ServiceId, keys: LocalKeyset)
    | Report(client: ClientId)
    | Error(destination: ServiceId)
    | EsbError(destination: ServiceId)
    | ChannelUpdate(oldId: Slice32, newId: Slice32)
    | OtherCtl

  datatype LnMsg =
    | OpenChannel(temp: Slice32, fundingSat: U64, pushMsat: nat)
    | AcceptChannel(temp: Slice32)
    | FundingCreated(temp: Slice32, txid: Slice32, vout: Vout, signature: nat)
    | FundingSigned(channelId: Slice32, signature: nat)
    | FundingLocked(channelId: Slice32)
    | ChannelReestablish(channelId: Slice32)
    | OtherLn

  datatype BusMsg = Ctl(ctl: CtlMsg) | Bolt(bolt: LnMsg)

  /** A message on a bus, with the identity its sender had when sending it and the identity
      it is addressed to. */
  datatype Envelope = Envelope(source: ServiceId, dest: ServiceId, msg: BusMsg)
}
