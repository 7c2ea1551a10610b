/** The peer daemon peerd: forwarding of channel messages between a channel daemon and the
    remote peer, by the channel id found in the message. */
module Peerd {
  import opened Types

  datatype ActiveId = Temporary(id: Slice32) | Static(id: Slice32)

  function Renamed(channels: set<ActiveId>, temp: Slice32, txid: Slice32, vout: Vout): set<ActiveId> {
    (channels - {Temporary(temp)}) + {Static(ChannelIdWith(txid, vout))}
  }

  /** Channels known to the daemon after sending a message to the remote peer. */
  function Outgoing(channels: set<ActiveId>, msg: LnMsg): set<ActiveId> {
    match msg
    case OpenChannel(temp, _, _) => channels + {Temporary(temp)}
    case AcceptChannel(temp) => channels + {Temporary(temp)}
    case FundingCreated(temp, txid, vout, _) => Renamed(channels, temp, txid, vout)
    case ChannelReestablish(id) => channels + {Static(id)}
    case _ => channels
  }

  function Incoming(channels: set<ActiveId>, msg: LnMsg): set<ActiveId> {
    match msg
    case FundingCreated(temp, txid, vout, _) => Renamed(channels, temp, txid, vout)
    case _ => channels
  }

  /** The daemon a message from the remote peer is handed to. */
  function Route(msg: LnMsg): Option<ServiceId> {
    match msg
    case OpenChannel(_, _, _) | ChannelReestablish(_) => Some(LnpBroker)
    case AcceptChannel(temp) => Some(Channel(temp))
    case FundingCreated(temp, _, _, _) => Some(Channel(temp))
    case FundingSigned(id, _) => Some(Channel(id))
    case FundingLocked(id) => Some(Channel(id))
    case OtherLn => None
  }

  class Runtime {
    const identity: ServiceId
    var channels: set<ActiveId>
    var messagesSent: nat
    var messagesReceived: nat

    constructor (remote: NodeId)
      ensures identity == PeerBolt(remote) && channels == {} && messagesSent == messagesReceived == 0
    {
      identity := PeerBolt(remote);
      channels, messagesSent, messagesReceived := {}, 0, 0;
    }

    method HandleBolt(msg: LnMsg) returns (wire: LnMsg)
      modifies `channels, `messagesSent
      ensures wire == msg && messagesSent == old(messagesSent) + 1
      ensures channels == Outgoing(old(channels), msg)
    {
      messagesSent := messagesSent + 1;
      wire := msg;
      match msg
      case OpenChannel(temp, _, _) => channels := channels + {Temporary(temp)};
      case AcceptChannel(temp) => channels := channels + {Temporary(temp)};
      case FundingCreated(temp, txid, vout, _) =>
        channels := channels - {Temporary(temp)};
        channels := channels + {Static(ChannelIdWith(txid, vout))};
      case ChannelReestablish(id) => channels := channels + {Static(id)};
      case _ =>
    }

    method HandleBridgeBolt(msg: LnMsg) returns (sends: seq<Envelope>)
      modifies `channels, `messagesReceived
      ensures messagesReceived == old(messagesReceived) + 1
      ensures channels == Incoming(old(channels), msg)
      ensures sends == if Route(msg).Some? then [Envelope(identity, Route(msg).value, Bolt(msg))] else []
    {
      messagesReceived := messagesReceived + 1;
      sends := [];
      match msg
      case OpenChannel(_, _, _) | ChannelReestablish(_) =>
        sends := [Envelope(identity, LnpBroker, Bolt(msg))];
      case AcceptChannel(temp) =>
        sends := [Envelope(identity, Channel(temp), Bolt(msg))];
      case FundingCreated(temp, txid, vout, _) =>
        sends := [Envelope(identity, Channel(temp), Bolt(msg))];
        channels := channels - {Temporary(temp)};
        channels := channels + {Static(ChannelIdWith(txid, vout))};
      case FundingSigned(id, _) =>
        sends := [Envelope(identity, Channel(id), Bolt(msg))];
      case FundingLocked(id) =>
        sends := [Envelope(identity, Channel(id), Bolt(msg))];
      case OtherLn =>
    }
  }
}
