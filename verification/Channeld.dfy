/** The channel daemon channeld: the propose and accept workflows, the machine that runs one of
    them, and the channel file the machine is kept in. */
module Channeld {
  import opened Types

  datatype ChannelPropose = Proposed | Accepted | Signing | Funding | Published | Locked

  datatype ChannelAccept = Accepted | Signed | Funded | Locked

  datatype Machine =
    | Launch
    | Propose(propose: ChannelPropose)
    | Accept(accept: ChannelAccept)
    | Active
    | Reestablishing
    | Closing
    | Abort
    | Penalize

  /** The visible part of the channel kept by the LNP core library: its temporary id, the amount
      it is proposed with, and the funding outpoint recorded by `refund_tx` or by a
      `funding_created` from the peer. */
  datatype BoltChannel = BoltChannel(temp: Slice32, amount: U64, funding: Option<(Slice32, Vout)>)

  /** What a channel file holds. */
  datatype ChannelState = ChannelState(machine: Machine, channel: BoltChannel, remote: Option<NodeId>)

  /** A running daemon: its bus identity, its state, the open channel file and the channel
      directory (None marks a file that was created but never written). */
  datatype Daemon = Daemon(
    identity: ServiceId, state: ChannelState, file: Slice32, disk: map<Slice32, Option<ChannelState>>)

  /** What foreign code answers during one event: whether the core library accepts the step,
      the funding script, the refund PSBT, the signature signd left in it, and how many of the
      sends whose failure matters get through. */
  datatype Verdict = Verdict(
    core: bool, script: string, refund: Psbt, signature: Option<nat>, budget: nat)

  datatype Failure = UnexpectedMessage | Core | Unsigned | Esb

  datatype Result =
    | Moved(d: Daemon, sends: seq<Envelope>, next: Machine)
    | Refused(d: Daemon, sends: seq<Envelope>, failure: Failure)
    | Crashed

  function Spawn(temp: Slice32): Daemon {
    Daemon(Channel(temp), ChannelState(Launch, BoltChannel(temp, 0, None), None), temp, map[temp := None])
  }

  // ---------- Identity, file and bus ----------

  function SaveState(d: Daemon): Daemon {
    d.(disk := d.disk[d.file := Some(d.state)])
  }

  /** Creates the file of the permanent id, saves into it, takes the new bus identity and
      removes the file of the temporary id; the daemon panics if that file is gone. */
  function SetIdentity(d: Daemon, id: Slice32): Daemon {
    var saved := SaveState(d.(file := id));
    saved.(identity := Channel(id), disk := saved.disk - {d.state.channel.temp})
  }

  /** Whether there is a file of the temporary id to remove once the new one was created. */
  predicate CanRename(d: Daemon, id: Slice32) {
    d.state.channel.temp in d.disk || d.state.channel.temp == id
  }

  function Machined(d: Daemon, m: Machine): Daemon {
    d.(state := d.state.(machine := m))
  }

  function WithFunding(d: Daemon, txid: Slice32, vout: Vout): Daemon {
    d.(state := d.state.(channel := d.state.channel.(funding := Some((txid, vout)))))
  }

  function WithRemote(d: Daemon, remote: NodeId): Daemon {
    d.(state := d.state.(remote := Some(remote)))
  }

  function ToCtl(d: Daemon, dest: ServiceId, msg: CtlMsg): Envelope {
    Envelope(d.identity, dest, Ctl(msg))
  }

  function ToPeer(d: Daemon, msg: LnMsg): Envelope
    requires d.state.remote.Some?
  {
    Envelope(d.identity, PeerBolt(d.state.remote.value), Bolt(msg))
  }

  function PermanentId(d: Daemon): Slice32
    requires d.state.channel.funding.Some?
  {
    ChannelIdWith(d.state.channel.funding.value.0, d.state.channel.funding.value.1)
  }

  /** Sends whose failure is ignored, then those whose failure fails the step. */
  function Sending(d: Daemon, ignored: seq<Envelope>, needed: seq<Envelope>, v: Verdict, next: Machine): Result {
    if |needed| <= v.budget then Moved(d, ignored + needed, next)
    else Refused(d, ignored + needed[..v.budget], Esb)
  }

  // ---------- Propose workflow (funder) ----------

  function StartPropose(d: Daemon, open: OpenChannelWith, v: Verdict): Result {
    if !v.core then Refused(d, [], Core)
    else if d.state.remote.None? then Crashed
    else
      var d1 := d.(state := d.state.(channel := d.state.channel.(amount := open.fundingSat)));
      Sending(d1, [], [ToPeer(d1, OpenChannel(d.state.channel.temp, open.fundingSat, open.pushMsat))], v,
              Propose(Proposed))
  }

  function CompleteProposed(d: Daemon, msg: BusMsg, v: Verdict): Result {
    if !(msg.Bolt? && msg.bolt.AcceptChannel?) then Refused(d, [], UnexpectedMessage)
    else if !v.core then Refused(d, [], Core)
    else
      var fund := FundChannel(v.script, d.state.channel.amount, None);
      Sending(d, [], [ToCtl(d, LnpBroker, ConstructFunding(fund))], v, Propose(ChannelPropose.Accepted))
  }

  function CompleteAccepted(d: Daemon, msg: BusMsg, v: Verdict): Result {
    if !(msg.Ctl? && msg.ctl.FundingConstructed?) then Refused(d, [], UnexpectedMessage)
    else if !v.core then Refused(d, [], Core)
    else
      var d1 := WithFunding(d, msg.ctl.psbt.txid, msg.ctl.psbt.vout);
      Sending(d1, [], [ToCtl(d1, Signer, Sign(v.refund))], v, Propose(Signing))
  }

  function CompleteSigning(d: Daemon, msg: BusMsg, v: Verdict): Result {
    if !(msg.Ctl? && msg.ctl.Signed?) then Refused(d, [], UnexpectedMessage)
    else if msg.ctl.psbt.inputs == [] then Crashed
    else if v.signature.None? then Refused(d, [], Unsigned)
    else if d.state.channel.funding.None? || d.state.remote.None? || !CanRename(d, PermanentId(d)) then Crashed
    else
      var (txid, vout) := d.state.channel.funding.value;
      var d1 := SetIdentity(d, PermanentId(d));
      var created := FundingCreated(d.state.channel.temp, txid, vout, v.signature.value);
      Sending(d1, [], [ToCtl(d1, LnpBroker, Hello), ToPeer(d1, created)], v, Propose(Funding))
  }

  function CompleteFunding(d: Daemon, msg: BusMsg, v: Verdict): Result {
    if !(msg.Bolt? && msg.bolt.FundingSigned?) then Refused(d, [], UnexpectedMessage)
    else if !v.core then Refused(d, [], Core)
    else if d.state.channel.funding.None? then Crashed
    else
      Sending(d, [], [ToCtl(d, LnpBroker, PublishFunding),
                      ToCtl(d, Watch, Track(d.state.channel.funding.value.0, 0))], v, Propose(Published))
  }

  function CompletePublished(d: Daemon, msg: BusMsg, v: Verdict): Result {
    if !(msg.Ctl? && msg.ctl.TxFound?) then Refused(d, [], UnexpectedMessage)
    else if d.state.channel.funding.None? || d.state.remote.None? then Crashed
    else Sending(d, [], [ToPeer(d, FundingLocked(PermanentId(d)))], v, Propose(ChannelPropose.Locked))
  }

  function CompleteLocked(d: Daemon, msg: BusMsg, v: Verdict): Result {
    if !(msg.Bolt? && msg.bolt.FundingLocked?) then Refused(d, [], UnexpectedMessage)
    else if d.state.channel.funding.None? || d.state.remote.None? then Crashed
    else
      var news := [ToCtl(d, Router, ChannelCreated(PermanentId(d)))];
      if !v.core then Refused(d, news, Core) else Sending(d, news, [], v, Active)
  }

  function NextPropose(d: Daemon, stage: ChannelPropose, msg: BusMsg, v: Verdict): Result {
    match stage
    case Proposed => CompleteProposed(d, msg, v)
    case Accepted => CompleteAccepted(d, msg, v)
    case Signing => CompleteSigning(d, msg, v)
    case Funding => CompleteFunding(d, msg, v)
    case Published => CompletePublished(d, msg, v)
    case Locked => CompleteLocked(d, msg, v)
  }

  // ---------- Accept workflow (fundee) ----------

  function StartAccept(d: Daemon, request: AcceptChannelFrom, v: Verdict): Result {
    if !v.core then Refused(d, [], Core)
    else
      Sending(d, [ToCtl(d, Signer, DeriveKeyset(request.temp))], [], v, Accept(ChannelAccept.Accepted))
  }

  function FinishAccepted(d: Daemon, msg: BusMsg, v: Verdict): Result {
    if !(msg.Ctl? && msg.ctl.Keyset?) then Refused(d, [], UnexpectedMessage)
    else if !v.core then Refused(d, [], Core)
    else if d.state.remote.None? then Crashed
    else Sending(d, [], [ToPeer(d, AcceptChannel(d.state.channel.temp))], v, Accept(ChannelAccept.Signed))
  }

  function FinishSigned(d: Daemon, msg: BusMsg, v: Verdict): Result {
    if !(msg.Bolt? && msg.bolt.FundingCreated?) then Refused(d, [], UnexpectedMessage)
    else if d.state.remote.None? || !CanRename(d, ChannelIdWith(msg.bolt.txid, msg.bolt.vout)) then Crashed
    else
      var id := ChannelIdWith(msg.bolt.txid, msg.bolt.vout);
      var d1 := SetIdentity(d, id);
      if !v.core then Refused(d1, [], Core)
      else
        var d2 := WithFunding(d1, msg.bolt.txid, msg.bolt.vout);
        Sending(d2, [], [ToCtl(d2, LnpBroker, ChannelUpdate(d.state.channel.temp, id)),
                         ToPeer(d2, FundingSigned(id, msg.bolt.signature))], v, Accept(Funded))
  }

  function FinishFunded(d: Daemon, msg: BusMsg, v: Verdict): Result {
    if !(msg.Bolt? && msg.bolt.FundingLocked?) then Refused(d, [], UnexpectedMessage)
    else if !v.core then Refused(d, [], Core)
    else if d.state.channel.funding.None? || d.state.remote.None? then Crashed
    else
      Sending(d, [ToCtl(d, Router, ChannelCreated(PermanentId(d)))], [ToCtl(d, Router, Hello)], v,
              Accept(ChannelAccept.Locked))
  }

  function FinishLocked(d: Daemon, msg: BusMsg, v: Verdict): Result {
    if !(msg.Ctl? && msg.ctl.Hello?) then Refused(d, [], UnexpectedMessage)
    else if d.state.channel.funding.None? || d.state.remote.None? then Crashed
    else Sending(d, [], [ToPeer(d, FundingLocked(PermanentId(d)))], v, Active)
  }

  function NextAccept(d: Daemon, stage: ChannelAccept, msg: BusMsg, v: Verdict): Result {
    match stage
    case Accepted => FinishAccepted(d, msg, v)
    case Signed => FinishSigned(d, msg, v)
    case Funded => FinishFunded(d, msg, v)
    case Locked => FinishLocked(d, msg, v)
  }

  // ---------- The machine ----------

  function CompleteLaunch(d: Daemon, msg: BusMsg, v: Verdict): Result {
    if msg.Ctl? && msg.ctl.OpenWith? then StartPropose(d, msg.ctl.open, v)
    else if msg.Ctl? && msg.ctl.AcceptFrom? then StartAccept(d, msg.ctl.accept, v)
    else Refused(d, [], UnexpectedMessage)
  }

  /** Allowed in every state of the machine. */
  function CompleteReestablish(d: Daemon, source: ServiceId, id: Slice32, v: Verdict): Result {
    if !v.core then Refused(d, [], Core)
    else if !source.PeerBolt? then Crashed
    else
      var d1 := WithRemote(d, source.node);
      var needed := [ToPeer(d1, ChannelReestablish(id))];
      if v.budget == 0 then Refused(d1, [], Esb)
      else Moved(d1, needed + [ToCtl(d1, Router, ChannelCreated(id))], Active)
  }

  function ProcessEvent(d: Daemon, source: ServiceId, msg: BusMsg, v: Verdict): Result {
    if msg.Bolt? && msg.bolt.ChannelReestablish? then CompleteReestablish(d, source, msg.bolt.channelId, v)
    else match d.state.machine
      case Launch => CompleteLaunch(d, msg, v)
      case Propose(stage) => NextPropose(d, stage, msg, v)
      case Accept(stage) => NextAccept(d, stage, msg, v)
      case Active => Moved(d, [], Active)
      case _ => Crashed
  }

  /** How an event left the daemon: with a new state saved, refused with the state machine
      where it was, not handed to the machine at all, or crashed. */
  datatype Status = Updated | Kept | Ignored | Halted

  datatype Reaction = Reaction(d: Daemon, sends: seq<Envelope>, status: Status)

  function Process(d: Daemon, source: ServiceId, msg: BusMsg, v: Verdict): Reaction {
    match ProcessEvent(d, source, msg, v)
    case Moved(d1, sends, next) => Reaction(SaveState(Machined(d1, next)), sends, Updated)
    case Refused(d1, sends, _) => Reaction(d1, sends, Kept)
    case Crashed => Reaction(d, [], Halted)
  }

  function HandleP2p(d: Daemon, remote: NodeId, msg: LnMsg, v: Verdict): Reaction {
    if msg.OpenChannel? || msg.OtherLn? then Reaction(d, [], Ignored)
    else Process(d, PeerBolt(remote), Bolt(msg), v)
  }

  function HandleCtl(d: Daemon, source: ServiceId, msg: CtlMsg, v: Verdict): Reaction {
    match msg
    case OpenWith(open) => Process(WithRemote(d, open.remotePeer), source, Ctl(msg), v)
    case AcceptFrom(accept) => Process(WithRemote(d, accept.remoteId), source, Ctl(msg), v)
    case FundingConstructed(_) | TxFound(_) | Signed(_) | Keyset(_, _) | Error(_) | EsbError(_) | Hello =>
      Process(d, source, Ctl(msg), v)
    case _ => Reaction(d, [], Ignored)
  }

  /** A message taken from a bus. Peer messages only ever come from a peer daemon. */
  function Handle(d: Daemon, source: ServiceId, msg: BusMsg, v: Verdict): Reaction {
    match msg
    case Bolt(ln) =>
      if source.PeerBolt? then HandleP2p(d, source.node, ln, v) else Reaction(d, [], Halted)
    case Ctl(ctl) => HandleCtl(d, source, ctl, v)
  }

  datatype Input = Input(source: ServiceId, msg: BusMsg, v: Verdict)

  function Run(d: Daemon, inputs: seq<Input>): Daemon
    decreases |inputs|
  {
    if inputs == [] then d
    else Run(Handle(d, inputs[0].source, inputs[0].msg, inputs[0].v).d, inputs[1..])
  }

  /** Number of successful steps taken by the machine. */
  function Successes(d: Daemon, inputs: seq<Input>): nat
    decreases |inputs|
  {
    if inputs == [] then 0
    else
      var r := Handle(d, inputs[0].source, inputs[0].msg, inputs[0].v);
      (if r.status == Updated then 1 else 0) + Successes(r.d, inputs[1..])
  }

  // ---------- Roles and ranks ----------

  /** The request to open or accept names the remote peer before the machine sees it. */
  function Prepared(d: Daemon, msg: BusMsg): Daemon {
    match msg
    case Ctl(OpenWith(open)) => WithRemote(d, open.remotePeer)
    case Ctl(AcceptFrom(accept)) => WithRemote(d, accept.remoteId)
    case _ => d
  }

  lemma HandleProcesses(d: Daemon, source: ServiceId, msg: BusMsg, v: Verdict)
    ensures
      var r := Handle(d, source, msg, v);
      || r == Process(Prepared(d, msg), source, msg, v)
      || r == Reaction(d, [], Ignored) || r == Reaction(d, [], Halted)
  {
  }

  function Rank(m: Machine): nat {
    match m
    case Launch => 0
    case Propose(Proposed) => 1
    case Propose(Accepted) => 2
    case Propose(Signing) => 3
    case Propose(Funding) => 4
    case Propose(Published) => 5
    case Propose(Locked) => 6
    case Accept(Accepted) => 1
    case Accept(Signed) => 2
    case Accept(Funded) => 3
    case Accept(Locked) => 4
    case _ => 7
  }

  /** `m'` may follow `m`: the role chosen at launch is never exchanged, and no state without
      an implementation is entered. */
  predicate Follows(m: Machine, m': Machine) {
    match m
    case Launch => m'.Launch? || m'.Propose? || m'.Accept? || m'.Active?
    case Propose(_) => m'.Propose? || m'.Active?
    case Accept(_) => m'.Accept? || m'.Active?
    case _ => m'.Active?
  }

  /** What every event keeps: the machine is in an implemented state and holds the data the
      later steps unwrap. */
  predicate Healthy(d: Daemon) {
    var s := d.state;
    && (s.machine.Launch? || s.machine.Propose? || s.machine.Accept? || s.machine.Active?)
    && (!s.machine.Launch? ==> s.remote.Some?)
    && (s.machine.Propose? && Rank(s.machine) >= 3 ==> s.channel.funding.Some?)
    && (s.machine.Accept? && Rank(s.machine) >= 3 ==> s.channel.funding.Some?)
  }

  predicate FromPeer(i: Input) { i.msg.Bolt? ==> i.source.PeerBolt? }

  /** The funder's and the fundee's step that change the identity, and the id they change to. */
  function Renaming(d: Daemon, msg: BusMsg): Option<Slice32> {
    match d.state.machine
    case Propose(Signing) =>
      if msg.Ctl? && msg.ctl.Signed? && d.state.channel.funding.Some? then Some(PermanentId(d)) else None
    case Accept(Signed) =>
      if msg.Bolt? && msg.bolt.FundingCreated? then Some(ChannelIdWith(msg.bolt.txid, msg.bolt.vout)) else None
    case _ => None
  }

  /** A commitment that came back from the signer without an input. */
  predicate Inputless(d: Daemon, msg: BusMsg) {
    d.state.machine == Propose(Signing) && msg.Ctl? && msg.ctl.Signed? && msg.ctl.psbt.inputs == []
  }

  /** The file of the temporary id is gone and a step wants to remove it; the funder's fails
      before that if the commitment is not signed. */
  predicate RenamesAgain(d: Daemon, msg: BusMsg, v: Verdict) {
    var id := Renaming(d, msg);
    id.Some? && !CanRename(d, id.value) && (d.state.machine.Propose? ==> v.signature.Some?)
  }

  /** What one event does to a machine in state `m`: a successful step raises the rank until the
      channel is active, a failed one leaves the machine alone. */
  predicate Advances(m: Machine, r: Reaction) {
    && Healthy(r.d) && Follows(m, r.d.state.machine)
    && (r.status != Updated ==> r.d.state.machine == m)
    && (r.status == Updated ==> r.d.state.machine.Active? || Rank(m) < Rank(r.d.state.machine))
  }

  lemma LaunchAdvances(d: Daemon, source: ServiceId, msg: BusMsg, v: Verdict)
    requires Healthy(d) && (msg.Bolt? ==> source.PeerBolt?) && d.state.machine.Launch?
    requires msg.Ctl? && (msg.ctl.OpenWith? || msg.ctl.AcceptFrom?) ==> d.state.remote.Some?
    ensures var r := Process(d, source, msg, v); Advances(d.state.machine, r) && r.status != Halted
  {
  }

  lemma ActiveAdvances(d: Daemon, source: ServiceId, msg: BusMsg, v: Verdict)
    requires Healthy(d) && (msg.Bolt? ==> source.PeerBolt?) && d.state.machine.Active?
    ensures var r := Process(d, source, msg, v); Advances(d.state.machine, r) && r.status != Halted
  {
  }

  lemma ReestablishAdvances(d: Daemon, source: ServiceId, id: Slice32, v: Verdict)
    requires Healthy(d) && source.PeerBolt?
    ensures
      var r := Process(d, source, Bolt(ChannelReestablish(id)), v);
      Advances(d.state.machine, r) && r.status != Halted
  {
  }

  lemma ProposeAdvances(d: Daemon, source: ServiceId, msg: BusMsg, v: Verdict)
    requires Healthy(d) && d.state.machine.Propose? && !(msg.Bolt? && msg.bolt.ChannelReestablish?)
    ensures
      var r := Process(d, source, msg, v);
      Advances(d.state.machine, r) && (r.status == Halted <==> Inputless(d, msg) || RenamesAgain(d, msg, v))
  {
    if d.state.machine == Propose(Signing) {
      SigningAdvances(d, source, msg, v);
    } else {
      OtherProposeAdvances(d, source, msg, v);
    }
  }

  lemma SigningAdvances(d: Daemon, source: ServiceId, msg: BusMsg, v: Verdict)
    requires Healthy(d) && d.state.machine == Propose(Signing) && !(msg.Bolt? && msg.bolt.ChannelReestablish?)
    ensures
      var r := Process(d, source, msg, v);
      Advances(d.state.machine, r) && (r.status == Halted <==> Inputless(d, msg) || RenamesAgain(d, msg, v))
  {
  }

  lemma OtherProposeAdvances(d: Daemon, source: ServiceId, msg: BusMsg, v: Verdict)
    requires Healthy(d) && d.state.machine.Propose? && d.state.machine != Propose(Signing)
    requires !(msg.Bolt? && msg.bolt.ChannelReestablish?)
    ensures var r := Process(d, source, msg, v); Advances(d.state.machine, r) && r.status != Halted
  {
  }

  lemma AcceptAdvances(d: Daemon, source: ServiceId, msg: BusMsg, v: Verdict)
    requires Healthy(d) && d.state.machine.Accept? && !(msg.Bolt? && msg.bolt.ChannelReestablish?)
    ensures
      var r := Process(d, source, msg, v);
      Advances(d.state.machine, r) && (r.status == Halted <==> RenamesAgain(d, msg, v))
  {
  }

  lemma ProcessAdvances(d: Daemon, source: ServiceId, msg: BusMsg, v: Verdict)
    requires Healthy(d)
    requires msg.Bolt? ==> source.PeerBolt?
    requires d.state.machine.Launch? && msg.Ctl? && (msg.ctl.OpenWith? || msg.ctl.AcceptFrom?) ==> d.state.remote.Some?
    ensures
      var r := Process(d, source, msg, v);
      Advances(d.state.machine, r) && (r.status == Halted <==> Inputless(d, msg) || RenamesAgain(d, msg, v))
  {
    if msg.Bolt? && msg.bolt.ChannelReestablish? {
      ReestablishAdvances(d, source, msg.bolt.channelId, v);
    } else {
      match d.state.machine
      case Launch => LaunchAdvances(d, source, msg, v);
      case Propose(_) => ProposeAdvances(d, source, msg, v);
      case Accept(_) => AcceptAdvances(d, source, msg, v);
      case Active => ActiveAdvances(d, source, msg, v);
    }
  }

  /** One event: a successful step raises the rank until the channel is active, a failed one
      leaves the machine alone, and the daemon panics exactly on a commitment without inputs and
      on a rename that finds the temporary file removed by an earlier one. */
  lemma HandleAdvances(d: Daemon, i: Input)
    requires Healthy(d) && FromPeer(i)
    ensures
      var r := Handle(d, i.source, i.msg, i.v);
      Advances(d.state.machine, r) && (r.status == Halted <==> Inputless(d, i.msg) || RenamesAgain(d, i.msg, i.v))
  {
    HandleProcesses(d, i.source, i.msg, i.v);
    ProcessAdvances(Prepared(d, i.msg), i.source, i.msg, i.v);
  }

  /** Whole runs, with reestablishment allowed at any time: the role is kept, no unimplemented
      state is reached, and seven successful steps make the channel active. */
  lemma {:induction false} RunAdvances(d: Daemon, inputs: seq<Input>)
    requires Healthy(d) && forall i | i in inputs :: FromPeer(i)
    ensures
      var m := Run(d, inputs).state.machine;
      && Healthy(Run(d, inputs)) && Follows(d.state.machine, m)
      && (m.Active? || Rank(d.state.machine) + Successes(d, inputs) <= Rank(m))
      && (Rank(d.state.machine) + Successes(d, inputs) >= 7 ==> m.Active?)
    decreases |inputs|
  {
    if inputs != [] {
      HandleAdvances(d, inputs[0]);
      var r := Handle(d, inputs[0].source, inputs[0].msg, inputs[0].v);
      RunAdvances(r.d, inputs[1..]);
    }
  }

  // ---------- When a step succeeds ----------

  /** Messages that are given to the machine. */
  predicate Reaches(msg: BusMsg) {
    match msg
    case Bolt(ln) => !ln.OpenChannel? && !ln.OtherLn?
    case Ctl(ctl) =>
      || ctl.OpenWith? || ctl.AcceptFrom? || ctl.FundingConstructed? || ctl.TxFound? || ctl.Signed?
      || ctl.Keyset? || ctl.Error? || ctl.EsbError? || ctl.Hello?
  }

  /** The message each state waits for; an active channel takes any. */
  predicate Expects(m: Machine, msg: BusMsg) {
    match m
    case Launch => msg.Ctl? && (msg.ctl.OpenWith? || msg.ctl.AcceptFrom?)
    case Propose(Proposed) => msg.Bolt? && msg.bolt.AcceptChannel?
    case Propose(Accepted) => msg.Ctl? && msg.ctl.FundingConstructed?
    case Propose(Signing) => msg.Ctl? && msg.ctl.Signed?
    case Propose(Funding) => msg.Bolt? && msg.bolt.FundingSigned?
    case Propose(Published) => msg.Ctl? && msg.ctl.TxFound?
    case Propose(Locked) => msg.Bolt? && msg.bolt.FundingLocked?
    case Accept(Accepted) => msg.Ctl? && msg.ctl.Keyset?
    case Accept(Signed) => msg.Bolt? && msg.bolt.FundingCreated?
    case Accept(Funded) => msg.Bolt? && msg.bolt.FundingLocked?
    case Accept(Locked) => msg.Ctl? && msg.ctl.Hello?
    case Active => true
    case _ => false
  }

  /** Whether the core library has a say, and how many messages have to get through. */
  predicate AsksCore(m: Machine) {
    m != Propose(Signing) && m != Propose(Published) && m != Accept(ChannelAccept.Locked) && m != Active
  }

  function SendsNeeded(m: Machine, msg: BusMsg): nat {
    match m
    case Propose(Signing) => 2
    case Propose(Funding) => 2
    case Accept(Signed) => 2
    case Propose(Locked) => 0
    case Active => 0
    case Launch => if msg.Ctl? && msg.ctl.AcceptFrom? then 0 else 1
    case _ => 1
  }

  /** The machine takes the step. A reestablishment is taken in any state. */
  predicate Granted(d: Daemon, msg: BusMsg, v: Verdict) {
    var m := d.state.machine;
    if msg.Bolt? && msg.bolt.ChannelReestablish? then v.core && v.budget > 0
    else
      && Expects(m, msg) && (AsksCore(m) ==> v.core) && SendsNeeded(m, msg) <= v.budget
      && (m == Propose(Signing) ==> v.signature.Some?) && !Inputless(d, msg) && !RenamesAgain(d, msg, v)
  }

  lemma LaunchGrants(d: Daemon, source: ServiceId, msg: BusMsg, v: Verdict)
    requires Healthy(d) && (msg.Bolt? ==> source.PeerBolt?) && (d.state.machine.Launch? || d.state.machine.Active?)
    requires msg.Ctl? && (msg.ctl.OpenWith? || msg.ctl.AcceptFrom?) ==> d.state.remote.Some?
    ensures Process(d, source, msg, v).status == Updated <==> Granted(d, msg, v)
  {
  }

  lemma ProposeGrants(d: Daemon, source: ServiceId, msg: BusMsg, v: Verdict)
    requires Healthy(d) && (msg.Bolt? ==> source.PeerBolt?) && d.state.machine.Propose? && Rank(d.state.machine) <= 3
    ensures Process(d, source, msg, v).status == Updated <==> Granted(d, msg, v)
  {
  }

  lemma PublishGrants(d: Daemon, source: ServiceId, msg: BusMsg, v: Verdict)
    requires Healthy(d) && (msg.Bolt? ==> source.PeerBolt?) && d.state.machine.Propose? && Rank(d.state.machine) > 3
    ensures Process(d, source, msg, v).status == Updated <==> Granted(d, msg, v)
  {
  }

  lemma AcceptGrants(d: Daemon, source: ServiceId, msg: BusMsg, v: Verdict)
    requires Healthy(d) && (msg.Bolt? ==> source.PeerBolt?) && d.state.machine.Accept?
    ensures Process(d, source, msg, v).status == Updated <==> Granted(d, msg, v)
  {
  }

  lemma ProcessGrants(d: Daemon, source: ServiceId, msg: BusMsg, v: Verdict)
    requires Healthy(d) && (msg.Bolt? ==> source.PeerBolt?)
    requires msg.Ctl? && (msg.ctl.OpenWith? || msg.ctl.AcceptFrom?) ==> d.state.remote.Some?
    ensures Process(d, source, msg, v).status == Updated <==> Granted(d, msg, v)
  {
    if d.state.machine.Accept? {
      AcceptGrants(d, source, msg, v);
    } else if d.state.machine.Propose? && Rank(d.state.machine) <= 3 {
      ProposeGrants(d, source, msg, v);
    } else if d.state.machine.Propose? {
      PublishGrants(d, source, msg, v);
    } else {
      LaunchGrants(d, source, msg, v);
    }
  }

  lemma ReachesExactly(d: Daemon, i: Input)
    requires FromPeer(i)
    ensures
      var r := Handle(d, i.source, i.msg, i.v);
      if Reaches(i.msg) then r == Process(Prepared(d, i.msg), i.source, i.msg, i.v) else r == Reaction(d, [], Ignored)
  {
  }

  lemma ProcessNeverIgnores(d: Daemon, source: ServiceId, msg: BusMsg, v: Verdict)
    ensures Process(d, source, msg, v).status != Ignored
  {
  }

  /** A healthy daemon takes a step exactly if the message is the one its state waits for, the core
      library agrees where it is asked, and the messages that matter get through; it ignores
      exactly the messages that are not the machine's. */
  lemma SucceedsExactlyWhen(d: Daemon, i: Input)
    requires Healthy(d) && FromPeer(i)
    ensures
      var status := Handle(d, i.source, i.msg, i.v).status;
      (status == Updated <==> Reaches(i.msg) && Granted(d, i.msg, i.v)) && (status == Ignored <==> !Reaches(i.msg))
  {
    ReachesExactly(d, i);
    if Reaches(i.msg) {
      ProcessGrants(Prepared(d, i.msg), i.source, i.msg, i.v);
      ProcessNeverIgnores(Prepared(d, i.msg), i.source, i.msg, i.v);
    }
  }

  /** What a refusal of the core library leaves behind. The funder's last step has told the router by
      then, and the fundee's rename has been carried out; otherwise nothing has happened. */
  predicate CoreRefused(d: Daemon, msg: BusMsg, r: Reaction) {
    && r.status == Kept
    && r.sends == (if d.state.machine == Propose(ChannelPropose.Locked) && d.state.channel.funding.Some?
                   then [Envelope(d.identity, Router, Ctl(ChannelCreated(PermanentId(d))))] else [])
    && if d.state.machine == Accept(ChannelAccept.Signed) && msg.Bolt? && msg.bolt.FundingCreated? then
         var id := ChannelIdWith(msg.bolt.txid, msg.bolt.vout);
         && r.d.identity == Channel(id) && r.d.file == id && r.d.state == d.state
         && d.state.channel.temp !in r.d.disk && (id != d.state.channel.temp ==> id in r.d.disk && r.d.disk[id] == Some(d.state))
       else r.d == d
  }

  lemma ProcessRefusals(d: Daemon, source: ServiceId, msg: BusMsg, v: Verdict)
    requires Healthy(d) && !(msg.Bolt? && msg.bolt.ChannelReestablish?)
    requires msg.Ctl? && (msg.ctl.OpenWith? || msg.ctl.AcceptFrom?) ==> d.state.remote.Some?
    ensures
      var r := Process(d, source, msg, v);
      && (!Expects(d.state.machine, msg) ==> r == Reaction(d, [], Kept))
      && (Expects(d.state.machine, msg) && AsksCore(d.state.machine) && !v.core && r.status != Halted ==> CoreRefused(d, msg, r))
      && (d.state.machine == Propose(Signing) && v.signature.None? && r.status != Halted ==> r == Reaction(d, [], Kept))
  {
    if d.state.machine.Propose? {
      ProposeRefusals(d, source, msg, v);
    } else {
      OtherRefusals(d, source, msg, v);
    }
  }

  lemma ProposeRefusals(d: Daemon, source: ServiceId, msg: BusMsg, v: Verdict)
    requires Healthy(d) && !(msg.Bolt? && msg.bolt.ChannelReestablish?) && d.state.machine.Propose?
    ensures
      var r := Process(d, source, msg, v);
      && (!Expects(d.state.machine, msg) ==> r == Reaction(d, [], Kept))
      && (Expects(d.state.machine, msg) && AsksCore(d.state.machine) && !v.core && r.status != Halted ==> CoreRefused(d, msg, r))
      && (d.state.machine == Propose(Signing) && v.signature.None? && r.status != Halted ==> r == Reaction(d, [], Kept))
  {
  }

  lemma OtherRefusals(d: Daemon, source: ServiceId, msg: BusMsg, v: Verdict)
    requires Healthy(d) && !(msg.Bolt? && msg.bolt.ChannelReestablish?) && !d.state.machine.Propose?
    requires msg.Ctl? && (msg.ctl.OpenWith? || msg.ctl.AcceptFrom?) ==> d.state.remote.Some?
    ensures
      var r := Process(d, source, msg, v);
      && (!Expects(d.state.machine, msg) ==> r == Reaction(d, [], Kept))
      && (Expects(d.state.machine, msg) && AsksCore(d.state.machine) && !v.core && r.status != Halted ==> CoreRefused(d, msg, r))
  {
  }

  /** Refusals, other than for lack of a send: an unexpected message or an unsigned commitment changes
      and sends nothing (but a request to open or accept has named the remote peer); a refusal of
      the core library leaves behind just what `CoreRefused` says. */
  lemma RefusalsExact(d: Daemon, i: Input)
    requires Healthy(d) && FromPeer(i) && Reaches(i.msg) && !(i.msg.Bolt? && i.msg.bolt.ChannelReestablish?)
    ensures
      var r, d0, m := Handle(d, i.source, i.msg, i.v), Prepared(d, i.msg), d.state.machine;
      && (!Expects(m, i.msg) ==> r == Reaction(d0, [], Kept))
      && (Expects(m, i.msg) && AsksCore(m) && !i.v.core && r.status != Halted ==> CoreRefused(d0, i.msg, r))
      && (m == Propose(Signing) && i.v.signature.None? && r.status != Halted ==> r == Reaction(d0, [], Kept))
  {
    ReachesExactly(d, i);
    ProcessRefusals(Prepared(d, i.msg), i.source, i.msg, i.v);
  }

  /** A step that fails because messages cannot be sent has sent those before, and has done all but
      move the machine: it leaves memory, identity and open file as the step would. */
  predicate SendsPart(r: Reaction, full: Reaction, missing: nat) {
    && r.status == Kept && |r.sends| == |full.sends| - missing && r.sends <= full.sends
    && r.d.state.channel == full.d.state.channel && r.d.state.remote == full.d.state.remote
    && r.d.identity == full.d.identity && r.d.file == full.d.file
  }

  lemma ProposeSendsPart(d: Daemon, source: ServiceId, msg: BusMsg, v: Verdict, budget: nat)
    requires Healthy(d) && (d.state.machine.Propose? || d.state.machine.Launch?) && !(msg.Bolt? && msg.bolt.ChannelReestablish?)
    requires msg.Ctl? && (msg.ctl.OpenWith? || msg.ctl.AcceptFrom?) ==> d.state.remote.Some?
    requires v.budget >= 2 && Granted(d, msg, v) && budget < SendsNeeded(d.state.machine, msg)
    ensures SendsPart(Process(d, source, msg, v.(budget := budget)), Process(d, source, msg, v),
                      SendsNeeded(d.state.machine, msg) - budget)
  {
  }

  lemma AcceptSendsPart(d: Daemon, source: ServiceId, msg: BusMsg, v: Verdict, budget: nat)
    requires Healthy(d) && d.state.machine.Accept? && !(msg.Bolt? && msg.bolt.ChannelReestablish?)
    requires v.budget >= 2 && Granted(d, msg, v) && budget < SendsNeeded(d.state.machine, msg)
    ensures SendsPart(Process(d, source, msg, v.(budget := budget)), Process(d, source, msg, v),
                      SendsNeeded(d.state.machine, msg) - budget)
  {
  }

  lemma FailedStepSendsPart(d: Daemon, i: Input, budget: nat)
    requires Healthy(d) && FromPeer(i) && Reaches(i.msg) && !(i.msg.Bolt? && i.msg.bolt.ChannelReestablish?)
    requires i.v.budget >= 2 && Granted(d, i.msg, i.v) && budget < SendsNeeded(d.state.machine, i.msg)
    ensures SendsPart(Handle(d, i.source, i.msg, i.v.(budget := budget)), Handle(d, i.source, i.msg, i.v),
                      SendsNeeded(d.state.machine, i.msg) - budget)
  {
    ReachesExactly(d, i);
    ReachesExactly(d, i.(v := i.v.(budget := budget)));
    if d.state.machine.Accept? {
      AcceptSendsPart(Prepared(d, i.msg), i.source, i.msg, i.v, budget);
    } else {
      ProposeSendsPart(Prepared(d, i.msg), i.source, i.msg, i.v, budget);
    }
  }

  // ---------- Panics ----------

  predicate BeforeRename(m: Machine) {
    m.Launch? || (m.Propose? && Rank(m) <= 3) || (m.Accept? && Rank(m) <= 2)
  }

  /** The file of the temporary id is there as long as a rename is to come. */
  predicate Filed(d: Daemon) {
    BeforeRename(d.state.machine) ==> d.state.channel.temp in d.disk
  }

  /** The files are swapped and then the step fails: the fundee's if the core library refuses the
      message, either if a message cannot be sent. */
  predicate Halfway(d: Daemon, i: Input) {
    && Renaming(d, i.msg).Some? && !Inputless(d, i.msg)
    && if d.state.machine.Propose? then i.v.signature.Some? && i.v.budget < 2 else !i.v.core || i.v.budget < 2
  }

  lemma ProcessFiles(d: Daemon, source: ServiceId, msg: BusMsg, v: Verdict)
    requires Healthy(d) && (msg.Bolt? ==> source.PeerBolt?) && d.state.channel.temp in d.disk
    requires BeforeRename(d.state.machine)
    ensures
      var r := Process(d, source, msg, v);
      && r.d.state.channel.temp == d.state.channel.temp
      && (Filed(r.d) <==> !Halfway(d, Input(source, msg, v)))
  {
    if d.state.machine == Propose(Signing) || d.state.machine == Accept(ChannelAccept.Signed) {
      RenamingFiles(d, source, msg, v);
    } else {
      OtherFiles(d, source, msg, v);
    }
  }

  lemma RenamingFiles(d: Daemon, source: ServiceId, msg: BusMsg, v: Verdict)
    requires Healthy(d) && (msg.Bolt? ==> source.PeerBolt?) && d.state.channel.temp in d.disk
    requires d.state.machine == Propose(Signing) || d.state.machine == Accept(ChannelAccept.Signed)
    ensures
      var r := Process(d, source, msg, v);
      && r.d.state.channel.temp == d.state.channel.temp
      && (Filed(r.d) <==> !Halfway(d, Input(source, msg, v)))
  {
  }

  lemma OtherFiles(d: Daemon, source: ServiceId, msg: BusMsg, v: Verdict)
    requires d.state.channel.temp in d.disk && BeforeRename(d.state.machine)
    requires d.state.machine != Propose(Signing) && d.state.machine != Accept(ChannelAccept.Signed)
    ensures
      var r := Process(d, source, msg, v);
      r.d.state.channel.temp == d.state.channel.temp && d.state.channel.temp in r.d.disk
  {
  }

  /** An event leaves the temporary file behind a daemon that will want to remove it, except
      exactly when a rename goes half way. */
  lemma HandleFiles(d: Daemon, i: Input)
    requires Healthy(d) && FromPeer(i) && Filed(d)
    ensures
      var r := Handle(d, i.source, i.msg, i.v);
      Filed(r.d) <==> !Halfway(d, i)
  {
    HandleProcesses(d, i.source, i.msg, i.v);
    HandleAdvances(d, i);
    if BeforeRename(d.state.machine) {
      ProcessFiles(Prepared(d, i.msg), i.source, i.msg, i.v);
    }
  }

  /** Some event of the run makes the daemon panic. */
  predicate Halts(d: Daemon, inputs: seq<Input>)
    decreases |inputs|
  {
    inputs != [] &&
    var r := Handle(d, inputs[0].source, inputs[0].msg, inputs[0].v);
    r.status == Halted || Halts(r.d, inputs[1..])
  }

  /** Some event of the run is a commitment without inputs or leaves a rename half way. */
  predicate Troubled(d: Daemon, inputs: seq<Input>)
    decreases |inputs|
  {
    inputs != [] &&
    (Inputless(d, inputs[0].msg) || Halfway(d, inputs[0])
     || Troubled(Handle(d, inputs[0].source, inputs[0].msg, inputs[0].v).d, inputs[1..]))
  }

  /** A daemon panics only after a rename that went half way, or on a commitment without inputs:
      no other run, with whatever messages and refusals, brings it down. */
  lemma {:induction false} HaltsOnlyInTrouble(d: Daemon, inputs: seq<Input>)
    requires Healthy(d) && Filed(d) && (forall i | i in inputs :: FromPeer(i)) && !Troubled(d, inputs)
    ensures !Halts(d, inputs)
    decreases |inputs|
  {
    if inputs != [] {
      HandleAdvances(d, inputs[0]);
      HandleFiles(d, inputs[0]);
      HaltsOnlyInTrouble(Handle(d, inputs[0].source, inputs[0].msg, inputs[0].v).d, inputs[1..]);
    }
  }

  /** And such a rename does bring it down when it is tried again: a `funding_created` that was
      refused after the files were swapped, followed by another one; or a commitment signed again
      after the announcement could not be sent. */
  lemma SecondRenameHalts(d: Daemon, first: Input, second: Input)
    requires Healthy(d) && FromPeer(first) && FromPeer(second) && d.state.channel.temp in d.disk && Halfway(d, first)
    requires
      var d1 := Handle(d, first.source, first.msg, first.v).d;
      && Renaming(d1, second.msg).Some? && Renaming(d1, second.msg).value != d.state.channel.temp
      && (d1.state.machine.Propose? ==> second.v.signature.Some?)
    ensures
      var r := Handle(d, first.source, first.msg, first.v);
      r.status == Kept && Handle(r.d, second.source, second.msg, second.v).status == Halted
  {
    var r := Handle(d, first.source, first.msg, first.v);
    HandleAdvances(d, first);
    HandleFiles(d, first);
    HalfwayKeeps(d, first);
    HandleAdvances(r.d, second);
  }

  /** The two messages: a peer whose first `funding_created` the core library refuses brings the
      fundee's daemon down with the second. */
  lemma SecondFundingCreatedHalts(d: Daemon, peer: NodeId, first: LnMsg, second: LnMsg, v: Verdict, w: Verdict)
    requires Healthy(d) && d.state.machine == Accept(ChannelAccept.Signed) && d.state.channel.temp in d.disk
    requires first.FundingCreated? && second.FundingCreated? && !v.core
    requires ChannelIdWith(second.txid, second.vout) != d.state.channel.temp
    ensures
      var r := Handle(d, PeerBolt(peer), Bolt(first), v);
      r.status == Kept && Handle(r.d, PeerBolt(peer), Bolt(second), w).status == Halted
  {
    var i, j := Input(PeerBolt(peer), Bolt(first), v), Input(PeerBolt(peer), Bolt(second), w);
    HandleAdvances(d, i);
    HalfwayKeeps(d, i);
    SecondRenameHalts(d, i, j);
  }

  lemma HalfwayKeeps(d: Daemon, i: Input)
    requires Healthy(d) && FromPeer(i) && d.state.channel.temp in d.disk && Halfway(d, i)
    ensures
      var r := Handle(d, i.source, i.msg, i.v);
      r.status == Kept && r.d.state.channel.temp == d.state.channel.temp
  {
  }

  // ---------- What the steps around funding do ----------

  /** PublishFunding is sent only on an accepted `funding_signed` in the state waiting for it;
      FundingConstructed is never sent by a channel daemon. */
  predicate Authorised(d: Daemon, msg: BusMsg, v: Verdict, e: Envelope) {
    && (e.msg == Ctl(PublishFunding) ==>
          && d.state.machine == Propose(Funding) && d.state.channel.funding.Some?
          && msg.Bolt? && msg.bolt.FundingSigned? && v.core && e.source == d.identity)
    && !(e.msg.Ctl? && e.msg.ctl.FundingConstructed?)
  }

  lemma ProposeSends(d: Daemon, stage: ChannelPropose, msg: BusMsg, v: Verdict, e: Envelope)
    requires d.state.machine == Propose(stage)
    requires var r := NextPropose(d, stage, msg, v); !r.Crashed? && e in r.sends
    ensures Authorised(d, msg, v, e)
  {
  }

  lemma AcceptSends(d: Daemon, stage: ChannelAccept, msg: BusMsg, v: Verdict, e: Envelope)
    requires var r := NextAccept(d, stage, msg, v); !r.Crashed? && e in r.sends
    ensures Authorised(d, msg, v, e)
  {
  }

  lemma ProcessSends(d: Daemon, source: ServiceId, msg: BusMsg, v: Verdict)
    ensures forall e | e in Process(d, source, msg, v).sends :: Authorised(d, msg, v, e)
  {
    forall e | e in Process(d, source, msg, v).sends
      ensures Authorised(d, msg, v, e)
    {
      if !(msg.Bolt? && msg.bolt.ChannelReestablish?) {
        match d.state.machine
        case Propose(stage) => ProposeSends(d, stage, msg, v, e);
        case Accept(stage) => AcceptSends(d, stage, msg, v, e);
        case _ =>
      }
    }
  }

  lemma HandleSends(d: Daemon, source: ServiceId, msg: BusMsg, v: Verdict)
    ensures forall e | e in Handle(d, source, msg, v).sends :: Authorised(d, msg, v, e)
  {
    match msg
    case Ctl(OpenWith(open)) => ProcessSends(WithRemote(d, open.remotePeer), source, msg, v);
    case Ctl(AcceptFrom(accept)) => ProcessSends(WithRemote(d, accept.remoteId), source, msg, v);
    case _ => ProcessSends(d, source, msg, v);
  }

  /** How the funding recorded by a proposing daemon changes, and what entering the state that
      waits for `funding_signed` involves: the permanent identity and the announcement. */
  predicate FundingShape(d: Daemon, msg: BusMsg, r: Reaction) {
    var s, s' := d.state, r.d.state;
    && (s'.machine.Launch? ==> s.machine.Launch? && s'.channel.funding == s.channel.funding)
    && (s'.machine.Propose? ==> s.machine.Launch? || s.machine.Propose?)
    && (s'.machine.Propose? && s'.channel.funding != s.channel.funding ==>
          && msg.Ctl? && msg.ctl.FundingConstructed?
          && s'.channel.funding == Some((msg.ctl.psbt.txid, msg.ctl.psbt.vout)))
    && (s'.machine == Propose(Funding) ==>
          && s.channel.funding.Some? && s'.channel.funding == s.channel.funding
          && if s.machine == s'.machine then r.d.identity == d.identity
             else
               && s.machine == Propose(Signing)
               && r.d.identity == Channel(PermanentId(d))
               && exists e | e in r.sends :: e.msg.Bolt? && e.msg.bolt.FundingCreated? &&
                    (e.msg.bolt.txid, e.msg.bolt.vout) == s.channel.funding.value)
  }

  lemma SigningFundingShape(d: Daemon, source: ServiceId, msg: BusMsg, v: Verdict)
    requires d.state.machine == Propose(Signing)
    ensures FundingShape(d, msg, Process(d, source, msg, v))
  {
    var r := Process(d, source, msg, v);
    if r.d.state.machine == Propose(Funding) {
      assert r.sends[1] in r.sends;
    }
  }

  lemma AcceptedFundingShape(d: Daemon, source: ServiceId, msg: BusMsg, v: Verdict)
    requires d.state.machine == Propose(Proposed) || d.state.machine == Propose(ChannelPropose.Accepted)
    ensures FundingShape(d, msg, Process(d, source, msg, v))
  {
  }

  lemma PublishedFundingShape(d: Daemon, source: ServiceId, msg: BusMsg, v: Verdict)
    requires d.state.machine.Propose? && Rank(d.state.machine) >= 4
    requires d.state.machine == Propose(Funding) ==> d.state.channel.funding.Some?
    ensures FundingShape(d, msg, Process(d, source, msg, v))
  {
  }

  lemma OtherFundingShape(d: Daemon, source: ServiceId, msg: BusMsg, v: Verdict)
    requires !d.state.machine.Propose?
    ensures FundingShape(d, msg, Process(d, source, msg, v))
  {
  }

  lemma ProcessFundingShape(d: Daemon, source: ServiceId, msg: BusMsg, v: Verdict)
    requires d.state.machine == Propose(Funding) ==> d.state.channel.funding.Some?
    ensures FundingShape(d, msg, Process(d, source, msg, v))
  {
    if d.state.machine == Propose(Signing) {
      SigningFundingShape(d, source, msg, v);
    } else if d.state.machine.Propose? && Rank(d.state.machine) <= 2 {
      AcceptedFundingShape(d, source, msg, v);
    } else if d.state.machine.Propose? {
      PublishedFundingShape(d, source, msg, v);
    } else {
      OtherFundingShape(d, source, msg, v);
    }
  }

  lemma PreparedShape(d: Daemon, msg: BusMsg, r: Reaction)
    requires FundingShape(Prepared(d, msg), msg, r)
    ensures FundingShape(d, msg, r)
  {
  }

  lemma UnmovedShape(d: Daemon, msg: BusMsg, status: Status)
    requires d.state.machine == Propose(Funding) ==> d.state.channel.funding.Some?
    ensures FundingShape(d, msg, Reaction(d, [], status))
  {
  }

  lemma HandleFundingShape(d: Daemon, source: ServiceId, msg: BusMsg, v: Verdict)
    requires d.state.machine == Propose(Funding) ==> d.state.channel.funding.Some?
    ensures FundingShape(d, msg, Handle(d, source, msg, v))
  {
    var r := Handle(d, source, msg, v);
    HandleProcesses(d, source, msg, v);
    UnmovedShape(d, msg, r.status);
    if r == Process(Prepared(d, msg), source, msg, v) {
      ProcessFundingShape(Prepared(d, msg), source, msg, v);
      PreparedShape(d, msg, r);
    }
  }

  // ---------- Persistence ----------

  /** The open channel file was written and holds the machine the daemon runs. */
  predicate Persisted(d: Daemon) {
    d.file in d.disk && d.disk[d.file].Some? && d.disk[d.file].value.machine == d.state.machine
  }

  /** The permanent id a message would give the channel. */
  function NewId(d: Daemon, msg: BusMsg): Option<Slice32> {
    if msg.Bolt? && msg.bolt.FundingCreated? then Some(ChannelIdWith(msg.bolt.txid, msg.bolt.vout))
    else if d.state.channel.funding.Some? then Some(PermanentId(d))
    else None
  }

  /** The permanent id is not the temporary one, so that swapping files removes the old file. */
  predicate Renames(d: Daemon, msg: BusMsg) {
    NewId(d, msg) != Some(d.state.channel.temp)
  }

  /** Even a step that fails half way, after the files were swapped, leaves the open file with
      the machine the daemon is in; a successful step saves the whole state. */
  lemma ProcessPersists(d: Daemon, source: ServiceId, msg: BusMsg, v: Verdict)
    requires Renames(d, msg)
    ensures
      var r := Process(d, source, msg, v);
      && (Persisted(d) ==> Persisted(r.d))
      && (r.status == Updated ==> r.d.file in r.d.disk && r.d.disk[r.d.file] == Some(r.d.state))
  {
  }

  lemma HandlePersists(d: Daemon, i: Input)
    requires Renames(d, i.msg)
    ensures
      var r := Handle(d, i.source, i.msg, i.v);
      && (Persisted(d) || r.status == Updated ==> Persisted(r.d))
      && (r.status == Updated ==> r.d.disk[r.d.file] == Some(r.d.state))
  {
    match i.msg
    case Ctl(OpenWith(open)) =>
      ProcessPersists(WithRemote(d, open.remotePeer), i.source, i.msg, i.v);
    case Ctl(AcceptFrom(accept)) =>
      ProcessPersists(WithRemote(d, accept.remoteId), i.source, i.msg, i.v);
    case _ =>
      ProcessPersists(d, i.source, i.msg, i.v);
  }

  predicate RenamesThroughout(d: Daemon, inputs: seq<Input>)
    decreases |inputs|
  {
    inputs == [] ||
    (Renames(d, inputs[0].msg) &&
     RenamesThroughout(Handle(d, inputs[0].source, inputs[0].msg, inputs[0].v).d, inputs[1..]))
  }

  /** From the first successful step on, the open channel file holds the machine in memory
      after every event of every run, failed steps included. */
  lemma {:induction false} RunPersists(d: Daemon, inputs: seq<Input>)
    requires RenamesThroughout(d, inputs)
    ensures Persisted(d) || Successes(d, inputs) > 0 ==> Persisted(Run(d, inputs))
    decreases |inputs|
  {
    if inputs != [] {
      HandlePersists(d, inputs[0]);
      RunPersists(Handle(d, inputs[0].source, inputs[0].msg, inputs[0].v).d, inputs[1..]);
    }
  }

  /** The agreement is about the machine only: a refused request to open another channel has
      already changed the remote peer in memory, and nothing saves it. */
  lemma RefusedRequestLeavesFileBehind(d: Daemon, source: ServiceId, open: OpenChannelWith, v: Verdict)
    requires d.state.machine.Propose? && d.state.remote != Some(open.remotePeer)
    requires d.file in d.disk && d.disk[d.file] == Some(d.state)
    ensures
      var r := Handle(d, source, Ctl(OpenWith(open)), v);
      r.status == Kept && Persisted(r.d) && r.d.disk[r.d.file] != Some(r.d.state)
  {
    var r := Handle(d, source, Ctl(OpenWith(open)), v);
    assert r.d == WithRemote(d, open.remotePeer);
    assert r.d.state.remote != d.state.remote;
  }

  // ---------- The daemon as an object ----------

  lemma AcceptKeepsRemote(d: Daemon, source: ServiceId, accept: AcceptChannelFrom, v: Verdict)
    ensures Process(d, source, Ctl(AcceptFrom(accept)), v).d.state.remote == d.state.remote
  {
  }

  /** How a transition method ended: with the next machine, with an error, or in a panic. */
  datatype Attempt = Stepped(next: Machine) | Failed(failure: Failure) | Dead

  /** The running daemon, whose fields the handlers update in place; `sent` are the messages sent
      while handling the current event, `budget` the sends that will still get through. */
  class Runtime {
    var identity: ServiceId
    var state: ChannelState
    var file: Slice32
    var disk: map<Slice32, Option<ChannelState>>
    var sent: seq<Envelope>
    var budget: nat

    ghost function View(): Daemon
      reads this
    {
      Daemon(identity, state, file, disk)
    }

    /** An event is about to be handled. */
    ghost predicate Ready(v: Verdict)
      reads this
    {
      sent == [] && budget == v.budget
    }

    /** What was done in place is what the specification says. */
    ghost predicate Did(r: Result, attempt: Attempt)
      reads this
    {
      match attempt
      case Stepped(next) => r == Moved(View(), sent, next)
      case Failed(failure) => r == Refused(View(), sent, failure)
      case Dead => r == Crashed
    }

    constructor (temp: Slice32)
      ensures View() == Spawn(temp)
    {
      identity := Channel(temp);
      state := ChannelState(Launch, BoltChannel(temp, 0, None), None);
      file := temp;
      disk := map[temp := None];
      sent, budget := [], 0;
    }

    method Save()
      modifies `disk
      ensures View() == SaveState(old(View()))
    {
      disk := disk[file := Some(state)];
    }

    /** Fails if the file of the temporary id, which is removed last, is not there. */
    method ChangeIdentity(id: Slice32) returns (ok: bool)
      modifies `identity, `file, `disk
      ensures ok <==> CanRename(old(View()), id)
      ensures ok ==> View() == SetIdentity(old(View()), id)
    {
      var prev := state.channel.temp;
      file := id;
      disk := disk[file := None];
      Save();
      identity := Channel(id);
      ok := prev in disk;
      disk := disk - {prev};
    }

    /** Sends under the identity the daemon has now. */
    method Send(dest: ServiceId, msg: BusMsg) returns (ok: bool)
      modifies `sent, `budget
      ensures ok <==> old(budget) > 0
      ensures if ok then sent == old(sent) + [Envelope(identity, dest, msg)] && budget == old(budget) - 1
              else sent == old(sent) && budget == old(budget)
    {
      ok := budget > 0;
      if ok {
        sent, budget := sent + [Envelope(identity, dest, msg)], budget - 1;
      }
    }

    /** Sends without minding a failure. */
    method Tell(dest: ServiceId, msg: CtlMsg)
      modifies `sent
      ensures sent == old(sent) + [Envelope(identity, dest, Ctl(msg))]
    {
      sent := sent + [Envelope(identity, dest, Ctl(msg))];
    }

    method Conclude(dest: ServiceId, msg: BusMsg, next: Machine) returns (attempt: Attempt)
      modifies `sent, `budget
      ensures old(budget) > 0 ==> attempt == Stepped(next) && sent == old(sent) + [Envelope(identity, dest, msg)]
      ensures old(budget) == 0 ==> attempt == Failed(Esb) && sent == old(sent)
    {
      var ok := Send(dest, msg);
      attempt := if ok then Stepped(next) else Failed(Esb);
    }

    // Propose workflow

    method ProposeChannel(open: OpenChannelWith, v: Verdict) returns (attempt: Attempt)
      requires Ready(v)
      modifies this
      ensures Did(StartPropose(old(View()), open, v), attempt)
    {
      if !v.core {
        return Failed(Core);
      } else if state.remote.None? {
        return Dead;
      }
      state := state.(channel := state.channel.(amount := open.fundingSat));
      var ln := OpenChannel(state.channel.temp, open.fundingSat, open.pushMsat);
      attempt := Conclude(PeerBolt(state.remote.value), Bolt(ln), Propose(Proposed));
    }

    method TakeAcceptChannel(msg: BusMsg, v: Verdict) returns (attempt: Attempt)
      requires Ready(v)
      modifies this
      ensures Did(CompleteProposed(old(View()), msg, v), attempt)
    {
      if !(msg.Bolt? && msg.bolt.AcceptChannel?) {
        return Failed(UnexpectedMessage);
      } else if !v.core {
        return Failed(Core);
      }
      var fund := FundChannel(v.script, state.channel.amount, None);
      attempt := Conclude(LnpBroker, Ctl(ConstructFunding(fund)), Propose(ChannelPropose.Accepted));
    }

    method TakeFunding(msg: BusMsg, v: Verdict) returns (attempt: Attempt)
      requires Ready(v)
      modifies this
      ensures Did(CompleteAccepted(old(View()), msg, v), attempt)
    {
      if !(msg.Ctl? && msg.ctl.FundingConstructed?) {
        return Failed(UnexpectedMessage);
      } else if !v.core {
        return Failed(Core);
      }
      state := state.(channel := state.channel.(funding := Some((msg.ctl.psbt.txid, msg.ctl.psbt.vout))));
      attempt := Conclude(Signer, Ctl(Sign(v.refund)), Propose(Signing));
    }

    /** The funder's rename in place: file and identity change before anything is sent, so the
        messages carry the new identity. */
    method SignCommitment(msg: BusMsg, v: Verdict) returns (attempt: Attempt)
      requires Ready(v)
      modifies this
      ensures Did(CompleteSigning(old(View()), msg, v), attempt)
    {
      if !(msg.Ctl? && msg.ctl.Signed?) {
        return Failed(UnexpectedMessage);
      } else if msg.ctl.psbt.inputs == [] {
        return Dead;
      } else if v.signature.None? {
        return Failed(Unsigned);
      } else if state.channel.funding.None? || state.remote.None? {
        return Dead;
      }
      var (txid, vout) := state.channel.funding.value;
      var created := FundingCreated(state.channel.temp, txid, vout, v.signature.value);
      var ok := ChangeIdentity(ChannelIdWith(txid, vout));
      if !ok {
        return Dead;
      }
      ok := Send(LnpBroker, Ctl(Hello));
      if !ok {
        return Failed(Esb);
      }
      attempt := Conclude(PeerBolt(state.remote.value), Bolt(created), Propose(Funding));
    }

    method TakeFundingSigned(msg: BusMsg, v: Verdict) returns (attempt: Attempt)
      requires Ready(v)
      modifies this
      ensures Did(CompleteFunding(old(View()), msg, v), attempt)
    {
      if !(msg.Bolt? && msg.bolt.FundingSigned?) {
        return Failed(UnexpectedMessage);
      } else if !v.core {
        return Failed(Core);
      } else if state.channel.funding.None? {
        return Dead;
      }
      var ok := Send(LnpBroker, Ctl(PublishFunding));
      if !ok {
        return Failed(Esb);
      }
      attempt := Conclude(Watch, Ctl(Track(state.channel.funding.value.0, 0)), Propose(Published));
    }

    method TakeTxFound(msg: BusMsg, v: Verdict) returns (attempt: Attempt)
      requires Ready(v)
      modifies this
      ensures Did(CompletePublished(old(View()), msg, v), attempt)
    {
      if !(msg.Ctl? && msg.ctl.TxFound?) {
        return Failed(UnexpectedMessage);
      }
      attempt := Lock(Propose(ChannelPropose.Locked));
    }

    /** Tells the peer that the funding is locked. */
    method Lock(next: Machine) returns (attempt: Attempt)
      modifies `sent, `budget
      ensures state.channel.funding.None? || state.remote.None? ==> attempt == Dead
      ensures state.channel.funding.Some? && state.remote.Some? ==>
                if old(budget) > 0 then
                  attempt == Stepped(next) && sent == old(sent) + [ToPeer(View(), FundingLocked(PermanentId(View())))]
                else attempt == Failed(Esb) && sent == old(sent)
    {
      if state.channel.funding.None? || state.remote.None? {
        return Dead;
      }
      var (txid, vout) := state.channel.funding.value;
      attempt := Conclude(PeerBolt(state.remote.value), Bolt(FundingLocked(ChannelIdWith(txid, vout))), next);
    }

    method TakeFundingLocked(msg: BusMsg, v: Verdict) returns (attempt: Attempt)
      requires Ready(v)
      modifies this
      ensures Did(CompleteLocked(old(View()), msg, v), attempt)
    {
      if !(msg.Bolt? && msg.bolt.FundingLocked?) {
        return Failed(UnexpectedMessage);
      } else if state.channel.funding.None? || state.remote.None? {
        return Dead;
      }
      var (txid, vout) := state.channel.funding.value;
      Tell(Router, ChannelCreated(ChannelIdWith(txid, vout)));
      attempt := if v.core then Stepped(Active) else Failed(Core);
    }

    // Accept workflow

    method AcceptChannelRequest(request: AcceptChannelFrom, v: Verdict) returns (attempt: Attempt)
      requires Ready(v)
      modifies this
      ensures Did(StartAccept(old(View()), request, v), attempt)
    {
      if !v.core {
        return Failed(Core);
      }
      Tell(Signer, DeriveKeyset(request.temp));
      attempt := Stepped(Accept(ChannelAccept.Accepted));
    }

    method TakeKeyset(msg: BusMsg, v: Verdict) returns (attempt: Attempt)
      requires Ready(v)
      modifies this
      ensures Did(FinishAccepted(old(View()), msg, v), attempt)
    {
      if !(msg.Ctl? && msg.ctl.Keyset?) {
        return Failed(UnexpectedMessage);
      } else if !v.core {
        return Failed(Core);
      } else if state.remote.None? {
        return Dead;
      }
      var accept := AcceptChannel(state.channel.temp);
      attempt := Conclude(PeerBolt(state.remote.value), Bolt(accept), Accept(ChannelAccept.Signed));
    }

    /** The fundee's rename in place: the files are swapped before the core library has
        accepted the message. */
    method AcceptFunding(msg: BusMsg, v: Verdict) returns (attempt: Attempt)
      requires Ready(v)
      modifies this
      ensures Did(FinishSigned(old(View()), msg, v), attempt)
    {
      if !(msg.Bolt? && msg.bolt.FundingCreated?) {
        return Failed(UnexpectedMessage);
      } else if state.remote.None? {
        return Dead;
      }
      var (txid, vout) := (msg.bolt.txid, msg.bolt.vout);
      var oldId, id := state.channel.temp, ChannelIdWith(txid, vout);
      var ok := ChangeIdentity(id);
      if !ok {
        return Dead;
      } else if !v.core {
        return Failed(Core);
      }
      state := state.(channel := state.channel.(funding := Some((txid, vout))));
      ok := Send(LnpBroker, Ctl(ChannelUpdate(oldId, id)));
      if !ok {
        return Failed(Esb);
      }
      attempt := Conclude(PeerBolt(state.remote.value), Bolt(FundingSigned(id, msg.bolt.signature)), Accept(Funded));
    }

    method TakePeerLocked(msg: BusMsg, v: Verdict) returns (attempt: Attempt)
      requires Ready(v)
      modifies this
      ensures Did(FinishFunded(old(View()), msg, v), attempt)
    {
      if !(msg.Bolt? && msg.bolt.FundingLocked?) {
        return Failed(UnexpectedMessage);
      } else if !v.core {
        return Failed(Core);
      } else if state.channel.funding.None? || state.remote.None? {
        return Dead;
      }
      var (txid, vout) := state.channel.funding.value;
      Tell(Router, ChannelCreated(ChannelIdWith(txid, vout)));
      attempt := Conclude(Router, Ctl(Hello), Accept(ChannelAccept.Locked));
    }

    method TakeRouterHello(msg: BusMsg, v: Verdict) returns (attempt: Attempt)
      requires Ready(v)
      modifies this
      ensures Did(FinishLocked(old(View()), msg, v), attempt)
    {
      if !(msg.Ctl? && msg.ctl.Hello?) {
        return Failed(UnexpectedMessage);
      }
      attempt := Lock(Active);
    }

    // The machine

    method Reestablish(source: ServiceId, id: Slice32, v: Verdict) returns (attempt: Attempt)
      requires Ready(v)
      modifies this
      ensures Did(CompleteReestablish(old(View()), source, id, v), attempt)
    {
      if !v.core {
        return Failed(Core);
      } else if !source.PeerBolt? {
        return Dead;
      }
      state := state.(remote := Some(source.node));
      var ok := Send(PeerBolt(source.node), Bolt(ChannelReestablish(id)));
      if !ok {
        return Failed(Esb);
      }
      Tell(Router, ChannelCreated(id));
      attempt := Stepped(Active);
    }

    method AdvancePropose(stage: ChannelPropose, msg: BusMsg, v: Verdict) returns (attempt: Attempt)
      requires Ready(v)
      modifies this
      ensures Did(NextPropose(old(View()), stage, msg, v), attempt)
    {
      match stage
      case Proposed => attempt := TakeAcceptChannel(msg, v);
      case Accepted => attempt := TakeFunding(msg, v);
      case Signing => attempt := SignCommitment(msg, v);
      case Funding => attempt := TakeFundingSigned(msg, v);
      case Published => attempt := TakeTxFound(msg, v);
      case Locked => attempt := TakeFundingLocked(msg, v);
    }

    method AdvanceAccept(stage: ChannelAccept, msg: BusMsg, v: Verdict) returns (attempt: Attempt)
      requires Ready(v)
      modifies this
      ensures Did(NextAccept(old(View()), stage, msg, v), attempt)
    {
      match stage
      case Accepted => attempt := TakeKeyset(msg, v);
      case Signed => attempt := AcceptFunding(msg, v);
      case Funded => attempt := TakePeerLocked(msg, v);
      case Locked => attempt := TakeRouterHello(msg, v);
    }

    method LeaveLaunch(msg: BusMsg, v: Verdict) returns (attempt: Attempt)
      requires Ready(v)
      modifies this
      ensures Did(CompleteLaunch(old(View()), msg, v), attempt)
    {
      if msg.Ctl? && msg.ctl.OpenWith? {
        attempt := ProposeChannel(msg.ctl.open, v);
      } else if msg.Ctl? && msg.ctl.AcceptFrom? {
        attempt := AcceptChannelRequest(msg.ctl.accept, v);
      } else {
        attempt := Failed(UnexpectedMessage);
      }
    }

    method ProcessMachine(source: ServiceId, msg: BusMsg, v: Verdict) returns (attempt: Attempt)
      requires Ready(v)
      modifies this
      ensures Did(ProcessEvent(old(View()), source, msg, v), attempt)
    {
      if msg.Bolt? && msg.bolt.ChannelReestablish? {
        attempt := Reestablish(source, msg.bolt.channelId, v);
      } else {
        match state.machine
        case Launch => attempt := LeaveLaunch(msg, v);
        case Propose(stage) => attempt := AdvancePropose(stage, msg, v);
        case Accept(stage) => attempt := AdvanceAccept(stage, msg, v);
        case Active => attempt := Stepped(Active);
        case _ => attempt := Dead;
      }
    }

    /** Runs the machine on one event; on success assigns the new machine and saves. */
    method ProcessOne(source: ServiceId, msg: BusMsg, v: Verdict) returns (status: Status)
      modifies this
      ensures
        var r := Process(old(View()), source, msg, v);
        status == r.status && (status != Halted ==> View() == r.d && sent == r.sends)
    {
      sent, budget := [], v.budget;
      var attempt := ProcessMachine(source, msg, v);
      match attempt
      case Stepped(next) =>
        state := state.(machine := next);
        Save();
        status := Updated;
      case Failed(_) => status := Kept;
      case Dead => status := Halted;
    }

    method ReceiveCtl(source: ServiceId, ctl: CtlMsg, v: Verdict) returns (status: Status)
      requires sent == []
      modifies this
      ensures
        var r := HandleCtl(old(View()), source, ctl, v);
        status == r.status && (status != Halted ==> View() == r.d && sent == r.sends)
    {
      match ctl
      case OpenWith(open) =>
        state := state.(remote := Some(open.remotePeer));
        status := ProcessOne(source, Ctl(ctl), v);
      case AcceptFrom(accept) =>
        state := state.(remote := Some(accept.remoteId));
        AcceptKeepsRemote(View(), source, accept, v);
        status := ProcessOne(source, Ctl(ctl), v);
        if status == Updated {
          state := state.(remote := Some(accept.remoteId));
        }
      case FundingConstructed(_) | TxFound(_) | Signed(_) | Keyset(_, _) | Error(_) | EsbError(_) | Hello =>
        status := ProcessOne(source, Ctl(ctl), v);
      case _ =>
        status := Ignored;
    }

    method ReceiveBolt(remote: NodeId, ln: LnMsg, v: Verdict) returns (status: Status)
      requires sent == []
      modifies this
      ensures
        var r := HandleP2p(old(View()), remote, ln, v);
        status == r.status && (status != Halted ==> View() == r.d && sent == r.sends)
    {
      if ln.OpenChannel? || ln.OtherLn? {
        status := Ignored;
      } else {
        status := ProcessOne(PeerBolt(remote), Bolt(ln), v);
      }
    }

    /** A message from either bus. A daemon that panics is gone; otherwise its state and what it
        sent are as specified. */
    method Receive(source: ServiceId, msg: BusMsg, v: Verdict) returns (status: Status)
      modifies this
      ensures
        var r := Handle(old(View()), source, msg, v);
        status == r.status && (status != Halted ==> View() == r.d && sent == r.sends)
    {
      sent := [];
      match msg
      case Bolt(ln) =>
        if source.PeerBolt? {
          status := ReceiveBolt(source.node, ln, v);
        } else {
          status := Halted;
        }
      case Ctl(ctl) =>
        status := ReceiveCtl(source, ctl, v);
    }
  }
}
