# Verified model of the LNP Node channel-opening daemons

LNP Node is a Lightning node made of daemons that talk over message buses. This project models
what the daemons do to open a channel, in Dafny, and proves what every run of them keeps.

| file | what it models |
|---|---|
| `Types.dfy`, `Reservations.dfy` | identifiers, messages, the table of pending fundings |
| `Launch.dfy` | the launcher automaton of lnpd |
| `Lnpd.dfy`, `Ledger.dfy`, `LnpdSteps.dfy` | lnpd's keyed maps and handlers; runs with any number of launches |
| `Channeld.dfy` | the channel daemon: propose and accept automata, rename, persistence |
| `Reestablishment.dfy` | reestablishing a channel, through lnpd and between two daemons |
| `Peerd.dfy` | the peer daemon's routing by id |
| `Node.dfy` | one node: all its daemons joined by a FIFO queue per link |
| `FundingSafety.dfy`, `FundedSafety.dfy` | runs of one node, alone and with its wallet, against an arbitrary remote peer |
| `Handshake.dfy`, `HandshakeSteps.dfy`, `HandshakeBrokers.dfy`, `HandshakeRuns.dfy`, `Registries.dfy`, `Opening.dfy` | joint runs of two nodes: stages, steps, simulation, registries of ids, theorems |
| `CoinSelection.dfy`, `FeeLoop.dfy`, `FundingWallet.dfy` | the funding wallet |
| `FundedRuns.dfy` | runs of lnpd together with its wallet |
| `Watchd.dfy`, `WatchRefinement.dfy` | the transaction watcher's threads |
| `AssetAmount.dfy` | the command-line form of asset amounts |

Main results:

- `FundingSafety.BroadcastOnlyAfterConfirmation`, `FundedSafety.BroadcastOnlyAfterConfirmation`: whatever
  the remote peer sends, lnpd broadcasts a funding transaction only after the channel daemon
  announced that transaction in `funding_created` and then took `funding_signed` while waiting for it.
- `Opening.HandshakeSafety`, `Opening.RunsEnd`, `Opening.FundeeActiveFirst`,
  `Opening.AddressingSurvivesRenames`: in every interleaving of two nodes' daemons, mixed with
  activity on other channels, no message is lost or refused, every run that cannot go on has opened
  the channel after exactly 42 deliveries, every run can be completed (`Opening.RunsCanComplete`),
  the fundee is active first, no message is ever on its way to an identity given up, lnpd finds
  its launcher under whatever id it is addressed by (`Opening.LaunchersStayReachable`), and in the
  end all registries hold the permanent id only (`Registries.RunKeepsRegistered`).
- The hypothesis of these is that lnpd takes the keyset before the channel daemon's greeting.
  It is exact: `Opening.RunsEnd` also shows that in the other order every complete run ends with
  a panic of lnpd after five deliveries. The reason is that the proposal is sent to the source of
  the last event (`Launch.LaunchDiamond`), which is then the signer; the signer answers with an
  error naming lnpd, for which lnpd has no launcher.
- `FundedRuns.NoLaunchLost`, `Lnpd.RunKeepsKeyed`, `Lnpd.PanicsExactlyWhen`: any number of concurrent
  launches of lnpd with its wallet, each in exactly one place, and the exact condition under which
  lnpd panics.
- `Channeld.RunAdvances`, `Channeld.RunPersists`, `Channeld.HandleAdvances`, `Channeld.HaltsOnlyInTrouble`:
  roles, ranks, agreement with the file on disk, and exactly when the channel daemon panics. It does:
  a rename that succeeds in a step that fails removes the temporary file, and the next rename wants
  to remove it again (`Channeld.SecondRenameHalts`).
- `CoinSelection.SelectionIsOptimal`, `FundingWallet.NoDoubleReservation`,
  `FundingWallet.ChangeIndexesIncrease`, `FundingWallet.BreaksExactlyWhen`; the fee loop ends if and
  only if it does within a bound (`FeeLoop.EndsWithinBound`), and with a builder that leaves out empty
  change it runs for ever exactly under a condition that can be worked out beforehand
  (`FeeLoop.SpinsExactlyWhenWavering`).
- `Watchd.WorkerSafeExactlyWhenCovered`, `Watchd.OneNotificationPerRequest`, `Watchd.RequestIsAnswered`: the
  watcher's worker is safe exactly under a condition on requests, and requests are answered at most
  once, and can always be answered.
- `Reestablishment.UnknownChannelAnswers`, `Reestablishment.ExchangeNeverEnds`: a peer's reestablishment
  reaches the channel daemon and is answered; two daemons of this kind then answer each other for ever.

How to read a joint run. `Handshake.Next` is the step relation: any queue may deliver its first
message, any wire may deliver, the watcher may find a published transaction, and either lnpd may
handle an event of other channels (`Elsewhere`). `Handshake.Stage` is an abstract clock: `m` counts
deliveries on the main strand, the other fields the side strands running beside it.
`Handshake.Shape` says what all daemons, queues and maps look like at a stage, and
`HandshakeRuns.Simulates` shows that every enabled step leads from one stage to the next.

Assumptions, stated as hypotheses of the lemmas where they are not built into the model:

- Foreign code appears as parameters: `Channeld.Verdict` holds what the core library, the signer
  and the bus answer, `Launch.Backend` what the wallet and the network answer,
  `FundingWallet.Answers` what the Electrum server and the transaction builder answer. Joint runs
  assume cooperative answers; the other theorems hold for all answers.
- Temporary ids are new (`Ledger.Fresh`), and a funding txid determines the coins it spends
  (`Reservations.CollisionFree`). No claim is made about signatures.
- The core library reports the temporary id while a channel daemon changes its identity, and
  `refund_tx` records the outpoint marked as channel funding.
- Each daemon handles one message at a time; sending appends to a FIFO queue.

Where the code differs from its documentation the code is followed. `doc/workflows/channel_propose.mmd`
shows the greeting before the keyset and the proposal then going to the channel daemon; in the code
that order sends the proposal to the signer. It also shows lnpd confirming the publication to the
channel daemon, which the code does not do. A tracking request carries a depth (0 for the mempool,
`src/bus/ctl.rs:77-80`), but the watcher compares it with a position that is never known
(`Watchd.DepthIsIgnored`).

## Model

| member | source | states |
|---|---|---|
| `Types.ChannelIdBits` | src/lnpd/automata/launch.rs:421-432 | the permanent id is the txid with those of its last 16 bits inverted that are set in the output index, BOLT #2, "Definition of `channel_id`" |
| `Types.ChannelIdInjective` | src/lnpd/automata/launch.rs:421-432 | the permanent id determines the funding txid when the output index is fixed, as in BOLT #2, "Definition of `channel_id`" |
| `Types.ChannelIdCollision` | src/peerd/runtime.rs:384-390 | with different output indexes every txid has another one with the same id |
| `Reservations.ReserveKeepsWellFormed` | src/lnpd/funding.rs:411-419 | reserving unreserved outpoints keeps all reservations pairwise disjoint |
| `Reservations.FreshTxid` | src/lnpd/funding.rs:411-419 | a funding of unreserved outpoints has a txid not yet in the table |
| `Launch.OverridesAreSeparate` | rpc/src/messages.rs:193-221 | each override of a request changes its own parameter and no other |
| `Launch.LaunchDiamond` | src/lnpd/automata/launch.rs:262-376 | both orders of greeting and keyset reach the same state with the same proposal, which says what client and node want field by field, sent to the channel daemon in one order and to the signer in the other |
| `Launch.GreetingProposes` | src/lnpd/automata/launch.rs:327-376 | on the greeting the launcher sends one proposal: each of nine parameters as the client asked or else the node's default, policy, keys, amounts and report address as they are |
| `Launch.KeysetProposes` | src/lnpd/automata/launch.rs:302-376 | on the keyset the same, with the keys just derived |
| `Lnpd.ControlSpares` | src/lnpd/runtime.rs:381-531 | any other message leaves launchers and reservations alone and publishes nothing |
| `Lnpd.StepKeepsKeyed` | src/lnpd/runtime.rs:365-451 | every event, valid or not, keeps launchers under their own id (txid once signing) with their funding in the wallet's table |
| `Lnpd.RunKeepsKeyed` | src/lnpd/runtime.rs:365-451 | the same for all runs |
| `Lnpd.PanicsExactlyWhen` | src/lnpd/runtime.rs:381-451 | in keyed states lnpd panics exactly on messages naming no registered launcher and on a funding request of a negotiating launcher that breaks the wallet (src/lnpd/funding.rs:378); no other `expect` or `panic!` can fire |
| `Lnpd.ErrsExactlyWhen` | src/lnpd/runtime.rs:381-478 | lnpd reports an error exactly on messages it does not support, on messages the launcher does not wait for, when the wallet declines and when the network does |
| `Lnpd.PeerGreets` | src/lnpd/runtime.rs:480-585 | a peer daemon that greets is connected from then on and no longer waited for |
| `Lnpd.SignedTxidNeverChanges` | src/lnpd/automata/launch.rs:468-503 | a signed transaction reaching a launcher is the one it waits for, so the changed-txid error never occurs |
| `Lnpd.Runtime.Rename` | src/lnpd/runtime.rs:620-629 | the old id is replaced by the new one, which is registered even if the old was unknown |
| `Lnpd.Runtime.Greet` | src/lnpd/runtime.rs:480-531 | the in-place handler does what the specification of Hello says |
| `Lnpd.Runtime.Continue` | src/lnpd/runtime.rs:390-427 | the in-place handlers of keyset, funding and publication refine the specification, panics of lookup and wallet included |
| `Lnpd.Runtime.Publish` | src/lnpd/runtime.rs:429-439 | the in-place handler of a signed transaction refines the specification |
| `Lnpd.Runtime.Abandon` | src/lnpd/runtime.rs:441-451 | an error reply drops the launcher it is about |
| `Lnpd.Runtime.Dispatch` | src/lnpd/runtime.rs:381-478 | the whole control interface keeps the maps keyed and panics exactly on unregistered launchers and broken wallets |
| `Ledger.PermanentIdUnused` | src/lnpd/runtime.rs:402-413 | the permanent id of a new funding is not a key of the map it is inserted under |
| `Ledger.CreateConserves` | src/lnpd/runtime.rs:365-370 | a request under a new id starts exactly that launch and leaves all others live, each in one place |
| `Ledger.StepConserves` | src/lnpd/runtime.rs:365-439 | an event starts at most one launch and ends at most one; all others stay live, each in exactly one place |
| `Ledger.NoLaunchLost` | src/lnpd/runtime.rs:365-439 | after any run in which the wallet's fundings are new, the launchers in the maps are exactly those started and not ended; `FundedRuns.NoLaunchLost` derives the condition from the wallet |
| `FundedRuns.WalletIsAcceptable` | src/lnpd/automata/launch.rs:401-419 | what the ledger assumes of a funding, the wallet provides |
| `FundedRuns.ReservationsStayEqual` | src/lnpd/automata/launch.rs:401-432 | through every event lnpd and its wallet look at the same reservations |
| `FundedRuns.NoLaunchLost` | src/lnpd/funding.rs:312-421 | in every run of lnpd with its wallet, whatever the server answers, no launch is lost or evicted, given new temporary ids, txids that determine their inputs, permanent ids that are not temporary ids in use, and fundings with a positive target |
| `FundedRuns.EmptyFundingEvicts` | src/lnpd/funding.rs:320-349 | a request for nothing at no fee spends nothing and can overwrite another launcher, which is why fundings have to ask for something |
| `FundedRuns.CarelessBrokerLosesLaunch` | src/lnpd/funding.rs:320-349 | brokers at which that happens |
| `FundedRuns.PanicsExactlyWhen` | src/lnpd/funding.rs:369-378 | with its wallet lnpd panics on a funding request exactly if the launcher is unknown, or negotiates and the wallet breaks |
| `FundedRuns.FundingPanicsExactlyWhen` | src/lnpd/funding.rs:369-402 | for steady weight: exactly if the coins selected reach the target and a construction fails; without overflow, if the funds are worth amount and first estimate and the inputs less than amount and fee, or the builder fails for another reason |
| `Channeld.HandleAdvances` | src/channeld/automata/mod.rs:236-327 | a successful step raises the rank or leaves the channel active, a failed one keeps the machine, and the daemon panics exactly on a signed commitment without inputs (src/channeld/automata/propose.rs:240) and on a rename whose temporary file an earlier rename removed (src/channeld/runtime.rs:164) |
| `Channeld.RunAdvances` | src/channeld/automata/mod.rs:236-327 | over all runs, reestablishment included, the role is kept, no unimplemented state is reached and seven successes make the channel active |
| `Channeld.SucceedsExactlyWhen` | src/channeld/automata/mod.rs:171-327 | a step is taken exactly if the message is the one the state waits for, the core library agrees where it is asked and the messages that matter get through; ignored are exactly the messages that are not the machine's |
| `Channeld.RefusalsExact` | src/channeld/automata/propose.rs:164-331 | what a refused step leaves behind: nothing, but a rename already made by the fundee and the router already told by the funder |
| `Channeld.FailedStepSendsPart` | src/channeld/automata/accept.rs:126-221 | a step that fails for lack of a send has sent the messages before it and done all but move the machine |
| `Channeld.HandleFiles` | src/channeld/runtime.rs:141-167 | a daemon that is still to be renamed keeps its temporary file through every event, except exactly when a rename is carried out and the step then fails |
| `Channeld.HaltsOnlyInTrouble` | src/channeld/automata/mod.rs:171-327 | over all runs a daemon panics only after such a rename, or on a commitment without inputs |
| `Channeld.SecondRenameHalts` | src/channeld/automata/propose.rs:225-267 | and after such a rename the next attempt does panic, on either side |
| `Channeld.SecondFundingCreatedHalts` | src/channeld/automata/accept.rs:145-178 | two messages: a `funding_created` refused by the core library, then another one, bring the fundee's daemon down |
| `Channeld.HandleSends` | src/channeld/automata/propose.rs:269-290 | PublishFunding is sent only on an accepted `funding_signed` in the state waiting for it |
| `Channeld.HandleFundingShape` | src/channeld/automata/propose.rs:199-267 | funding is recorded only from FundingConstructed, and entering Funding renames the daemon and announces that funding |
| `Channeld.HandlePersists` | src/channeld/automata/mod.rs:195-233 | after any step, failed ones included, the open file holds the machine in memory |
| `Channeld.RunPersists` | src/channeld/automata/mod.rs:195-233 | the same for all runs, also when a step fails after the files were swapped |
| `Channeld.RefusedRequestLeavesFileBehind` | src/channeld/runtime.rs:217-278 | a refused open request changes the remote peer in memory only, so the agreement is about the machine |
| `Channeld.Runtime.ChangeIdentity` | src/channeld/runtime.rs:141-167 | a new file is written under the new id, the identity changes and the old file goes; it fails exactly if there is no old file to remove |
| `Channeld.Runtime.SignCommitment` | src/channeld/automata/propose.rs:225-267 | the funder renames before it sends, so both messages carry the permanent id; panics as the source does without inputs or without the temporary file |
| `Channeld.Runtime.AcceptFunding` | src/channeld/automata/accept.rs:145-178 | the fundee renames on `funding_created` before the core library accepts it and answers under the permanent id; panics if the temporary file is gone |
| `Channeld.Runtime.ProcessMachine` | src/channeld/automata/mod.rs:236-327 | the transitions of both workflows, each changing file, identity and state in place and sending step by step, do together what the specification says |
| `Channeld.Runtime.Receive` | src/channeld/runtime.rs:183-278 | so do the handlers of both buses: new state, messages sent before a failure, and panics |
| `Reestablishment.DaemonAnswers` | src/channeld/automata/mod.rs:269-290 | in any state an accepted reestablishment is answered with one of the same channel to the peer it came from, announced to the router, and leaves the channel active with that peer; otherwise nothing is sent |
| `Reestablishment.KnownIsPassedOn` | src/lnpd/runtime.rs:217-225 | lnpd hands the peer's message on to the daemon of a channel it knows |
| `Reestablishment.UnknownChannelAnswers` | src/lnpd/runtime.rs:217-234 | for a channel it does not know lnpd launches the daemon, and whatever happens elsewhere until it greets, the daemon gets the message and answers the peer |
| `Reestablishment.AnswerRegisters` | src/peerd/runtime.rs:287-289 | the peer daemon that sends the answer knows the channel by its permanent id |
| `Reestablishment.BothBecomeActive` | src/channeld/automata/mod.rs:236-290 | two daemons that have taken each other's message are both active, with each other, on the same id |
| `Reestablishment.ExchangeNeverEnds` | src/channeld/automata/mod.rs:236-290 | and go on answering each other for ever, since an active channel answers a reestablishment too |
| `Peerd.Runtime.HandleBolt` | src/peerd/runtime.rs:253-293 | outgoing messages are passed on and register or rename the channel |
| `Peerd.Runtime.HandleBridgeBolt` | src/peerd/runtime.rs:344-416 | incoming messages are routed by the id they hold |
| `FundingSafety.BroadcastOnlyAfterConfirmation` | src/channeld/automata/propose.rs:225-290 | against an arbitrary peer, a broadcast comes after `funding_created` with that txid was sent and `funding_signed` was then taken in state Funding |
| `FundedSafety.BroadcastOnlyAfterConfirmation` | src/lnpd/automata/launch.rs:435-503 | the same for a node with its wallet, every request for funding answered by the wallet itself |
| `HandshakeSteps.ChanStep` | src/channeld/automata/propose.rs:164-331 | each message for a channel daemon finds it in the state that expects it, and its replies are those of the next stage |
| `HandshakeSteps.SigndStep` | src/signd/runtime.rs:123-175 | signd answers whoever asked |
| `HandshakeSteps.FundeeRoutedStep` | src/routed/runtime.rs:131-145 | routed notes the channel and echoes the greeting |
| `HandshakeSteps.CrossStep` | src/peerd/runtime.rs:344-406 | a message off the wire is handed to the daemon whose current identity it names |
| `HandshakeSteps.GreetingStep` | src/lnpd/automata/launch.rs:165-174 | the greeting under the permanent id finds the renamed launcher and does not move it |
| `HandshakeSteps.BroadcastStep` | src/lnpd/automata/launch.rs:468-503 | the signed funding reaches its launcher and the network |
| `HandshakeBrokers.PanicStep` | src/lnpd/runtime.rs:441-451 | the signer's error after an early greeting makes lnpd panic |
| `HandshakeBrokers.OpeningStep` | src/lnpd/runtime.rs:192-217 | `open_channel` makes the fundee's lnpd remember it and launch a daemon, which greets it |
| `HandshakeBrokers.UpdateStep` | src/channeld/automata/accept.rs:145-178 | the fundee's lnpd learns the permanent id at any later moment |
| `HandshakeBrokers.ElsewhereStep` | src/lnpd/runtime.rs:381-451 | events about other ids and txids leave the observed channel's launcher, reservation and acceptance alone |
| `HandshakeRuns.Simulates` | src/lnpd/runtime.rs:381-478 | every enabled step of two nodes leads to the next stage of the token machine |
| `HandshakeRuns.RunFollows` | src/channeld/automata/mod.rs:171-234 | whole runs follow the token machine, and each step of the channel counts once |
| `HandshakeRuns.BeginsAtStart` | src/lnpd/automata/launch.rs:226-260 | a request taken by an idle node puts the run at the first stage |
| `Registries.ControlRegisters` | src/lnpd/runtime.rs:381-478 | a greeting registers its source, an update and a funding rename; no other message changes the set of channels |
| `Registries.StepKeepsRegistered` | src/lnpd/runtime.rs:533-629 | every step of a joint run keeps both lnpds and both peerds on the id the channel has for them, the temporary one gone once renamed |
| `Registries.RunKeepsRegistered` | src/peerd/runtime.rs:253-406 | the same for whole runs, mixed with events of other channels |
| `Opening.GoodIffKeysetFirst` | src/lnpd/automata/launch.rs:144-162 | a run stays on course exactly if the keyset came before the greeting |
| `Opening.HandshakeSafety` | src/channeld/automata/accept.rs:126-221 | with the keyset first no message is lost, refused or makes lnpd panic, in any interleaving |
| `Opening.Progress` | src/channeld/automata/propose.rs:292-331 | an unfinished opening always has an enabled step |
| `Opening.RunsEnd` | src/channeld/automata/accept.rs:180-221 | a run that cannot go on and does not wait for an unwilling wallet has opened the channel after 42 deliveries, queues empty and all registries on the permanent id, if the keyset came first, and panicked after five otherwise |
| `Opening.RunsCanComplete` | src/lnpd/funding.rs:312-421 | whatever the wallet would answer, every run with the keyset first can be continued with that answer until the channel is open, or until the wallet is asked and refuses, breaks, never returns or cannot reach its server |
| `Opening.RunsAreBounded` | src/channeld/automata/propose.rs:164-331 | no run takes more than 42 steps of its own |
| `Opening.FundeeActiveFirst` | src/channeld/automata/propose.rs:308-331 | the funder is active only if the fundee is, and the fundee only once the funding is with the network |
| `Opening.AddressingSurvivesRenames` | src/channeld/runtime.rs:141-167 | every message in flight to a channel daemon names its current identity, and all daemons compute one permanent id |
| `Opening.LaunchersStayReachable` | src/lnpd/runtime.rs:387-439 | every message in flight to the funder's lnpd names, by its sender's id or its txid, a place where a launcher is registered |
| `CoinSelection.SortIsStableSort` | src/lnpd/funding.rs:325-326 | sorting by amount is a stable permutation in order |
| `CoinSelection.SelectCoins` | src/lnpd/funding.rs:328-349 | the loop takes the shortest prefix, largest first, whose 64-bit sum reaches the target |
| `CoinSelection.LargestAreBest` | src/lnpd/funding.rs:328-349 | no choice of coins is worth more than as many of the largest |
| `CoinSelection.SelectionIsOptimal` | src/lnpd/funding.rs:328-349 | the target is reached exactly if the funds reach it; dropping the last pick or choosing fewer coins falls short |
| `CoinSelection.RefusesExactlyWhenShort` | src/lnpd/funding.rs:320-349 | the refusal is correct if and only if amount plus fee estimate fits 64 bits or even the wrapped sum is not met |
| `CoinSelection.WrappedTargetIsMet` | src/lnpd/funding.rs:322-323 | a request near the 64-bit limit is met with far too few coins |
| `FeeLoop.SettledIsExact` | src/lnpd/funding.rs:391-402 | a settled fee is exact and covered |
| `FeeLoop.SettleFee` | src/lnpd/funding.rs:367-409 | the loop settles for a fee equal to weight times rate over 1000, rounded down, and covered by the inputs, fails, or goes on for ever, exactly as the specification says |
| `FeeLoop.EndsWithinBound` | src/lnpd/funding.rs:367-409 | the loop ends if and only if it ends within total minus amount plus two constructions |
| `FeeLoop.BoundIsEnough` | src/lnpd/funding.rs:367-409 | any ending it ever reaches is the one reached within that bound |
| `FeeLoop.SteadyWeightSettles` | src/lnpd/funding.rs:367-409 | with weight independent of the fee it ends after at most two constructions, failing exactly if the one with the first estimate or the one with the fee fails |
| `FeeLoop.LightNeverOverspends` | src/lnpd/funding.rs:318-323 | up to 2000 weight units the selected inputs cover every construction, so that only the builder itself can fail |
| `FeeLoop.HeavyOverspends` | src/lnpd/funding.rs:318-323 | any weight whose fee is above the estimate can overspend |
| `FeeLoop.SpinsExactlyWhenWavering` | src/lnpd/funding.rs:367-409 | with a builder that leaves out empty change the loop runs for ever exactly if nothing fails, the inputs pay for amount and fee with a change output to the unit, and the fee without it is lower |
| `FeeLoop.LightNeverWavers` | src/lnpd/funding.rs:318-323 | below 2000 weight units that cannot happen |
| `FeeLoop.LoopCanSpin` | src/lnpd/funding.rs:367-409 | a channel of 100000 paid from 102500 at rate 1000 with weights 2300 and 2500 never settles |
| `FundingWallet.Lookup` | src/lnpd/funding.rs:248-285 | one scan lists the unreserved coins and moves the index past them |
| `FundingWallet.ListingIsExact` | src/lnpd/funding.rs:240-298 | the listing has a coin as often as the scan of its branch reports it at its address, and not at all if it is promised to a channel |
| `FundingWallet.ListedExactlyWhen` | src/lnpd/funding.rs:262-285 | a coin is listed if and only if it is reported, with that branch, index and amount, and unpromised |
| `FundingWallet.ListingIsWorth` | src/lnpd/funding.rs:286-298 | the listing is worth what both scans report and nobody was promised |
| `FundingWallet.ListingPassesCoins` | src/lnpd/funding.rs:271-298 | after a listing both indexes are past all coins listed, in memory and on disk |
| `FundingWallet.Store.ListFunds` | src/lnpd/funding.rs:240-298 | both branches are listed, worth what both scans report and nobody was promised; indexes and disk are updated, nothing changes if the server fails |
| `FundingWallet.Store.ConstructFundingPsbt` | src/lnpd/funding.rs:312-421 | selection, change index, fee and reservation as specified: the transaction spends coins worth amount and fee, the table holds what it spends, and reservations stay disjoint |
| `FundingWallet.ReservationsStayDisjoint` | src/lnpd/funding.rs:240-298 | one construction never reserves a reserved coin, whatever the server answers |
| `FundingWallet.NoDoubleReservation` | src/lnpd/funding.rs:325-419 | over all runs no coin is promised twice |
| `FundingWallet.FundingIsAcceptable` | src/lnpd/funding.rs:312-421 | a funding spends unreserved coins, pays with its first output, has an exact fee and is reserved under its id |
| `FundingWallet.FundingSpendsSelection` | src/lnpd/funding.rs:328-402 | the inputs of a funding are the outpoints of listed coins worth amount and fee and, if no sum overflows, of as few coins as can be worth amount and first estimate |
| `FundingWallet.FundingIsReserved` | src/lnpd/funding.rs:367-421 | its fee is exact at the rate asked for or the wallet's own, and the table holds it under its txid, for its channel, with what it spends, and is otherwise unchanged |
| `FundingWallet.RefusalsReserveNothing` | src/lnpd/funding.rs:286-349 | a server that cannot be reached changes nothing; short funds reserve nothing |
| `FundingWallet.WalletServesLauncher` | src/lnpd/automata/launch.rs:401-432 | under lnpd the funding gives the launcher a free permanent id and both tables stay equal |
| `FundingWallet.LightFundingNeverBreaks` | src/lnpd/funding.rs:318-349 | funds and target within 64 bits and at most 2000 weight units: refusal exactly if funds are short, and a panic only if the builder fails although the fee is covered |
| `FundingWallet.BreaksExactlyWhen` | src/lnpd/funding.rs:367-402 | for steady weight the wallet breaks exactly if the coins selected reach the target and a construction fails; without overflow, if the funds are worth amount and first estimate and the inputs less than amount and fee, or the builder fails for another reason |
| `FundingWallet.HangsExactlyWhen` | src/lnpd/funding.rs:367-409 | with a builder that leaves out empty change the call never returns exactly if the coins selected reach the target (without overflow: the funds do) and the fee wavers |
| `FundingWallet.WalletCanHang` | src/lnpd/funding.rs:367-409 | a wallet with one coin of 102500 asked for a channel of 100000 at rate 1000 never answers |
| `FundingWallet.BuiltStaysFound` | src/lnpd/funding.rs:411-425 | a funding that was built is found under its txid, for the same channel, after any further calls |
| `FundingWallet.IndexPassesCoins` | src/lnpd/funding.rs:271-275 | the next index is past every address holding unreserved coins, and no further |
| `FundingWallet.ChangeIndexIsFresh` | src/lnpd/funding.rs:351-353 | a funding's change index was not handed out before and is past all change addresses with coins |
| `FundingWallet.ChangeIndexesIncrease` | src/lnpd/funding.rs:351-353 | over a run change indexes strictly increase until the index wraps |
| `FundingWallet.NextIndexIsHigher` | src/lnpd/funding.rs:351-353 | the next index is higher exactly until the last one is handed out |
| `FundingWallet.RestartForgets` | src/lnpd/funding.rs:411-419 | a reservation is not saved: reopened right after, the wallet gives the same coins and change index again |
| `FundingWallet.SavedExactlyByListing` | src/lnpd/funding.rs:295-298 | a reservation reaches the disk exactly by a later listing of funds, for a funding or for a client |
| `Watchd.ElectrumProcessor.UntrackTransaction` | src/watchd/worker.rs:209-218 | the first occurrence is removed, or the worker panics if there is none |
| `Watchd.ElectrumProcessor.ProcessOne` | src/watchd/worker.rs:150-218 | one command of the worker; what the server returns is reported on every query, request to track and request to untrack |
| `Watchd.Runtime.HandleBridge` | src/watchd/runtime.rs:167-186 | a found transaction that is tracked is untracked and reported |
| `Watchd.TrackAgrees` | src/watchd/runtime.rs:214-221 | a request to track keeps every tracked transaction in the worker's list to come |
| `Watchd.UntrackAgrees` | src/watchd/runtime.rs:222-243 | a request to untrack dooms the worker exactly if the transaction was untracked as often as tracked, never if it is still tracked |
| `Watchd.Forward` | src/watchd/runtime.rs:83-109 | a batch is forwarded transaction by transaction, other updates are ignored |
| `Watchd.StepAgrees` | src/watchd/runtime.rs:167-243 | each step keeps the threads in agreement, and only an untrack request for something untracked as often as tracked dooms the worker |
| `Watchd.WorkerSafeExactlyWhenCovered` | src/watchd/worker.rs:156-218 | over all runs the worker's lookup fails exactly after such a request; otherwise every tracked transaction is or will be in the worker's list |
| `Watchd.PoliteRunsAreSafe` | src/watchd/worker.rs:209-218 | if only tracked transactions are untracked on request the worker never panics |
| `Watchd.UntrackUnknownPanics` | src/watchd/worker.rs:213-213 | untracking what was never tracked stops the worker |
| `Watchd.OneNotificationPerRequest` | src/watchd/runtime.rs:171-186 | notifications never exceed requests, per transaction and service, whatever the server returns |
| `Watchd.WorkerReports` | src/watchd/worker.rs:156-218 | on its periodic query, if it tracks anything, and on every request to track or untrack the worker puts what the server returned into one batch |
| `Watchd.PeriodicReport` | src/watchd/worker.rs:160-197 | so a transaction the main thread waits for and the worker was told about is in a batch once the server returns it |
| `Watchd.SilentOnlyWithoutTracks` | src/watchd/worker.rs:189-197 | the query is left out exactly if the worker tracks nothing; then all the main thread waits for is queued to be tracked |
| `Watchd.BatchIsReported` | src/watchd/runtime.rs:83-186 | taking the updates and then the bridge messages notifies the service that tracks a transaction in a batch, exactly once, and stops tracking it |
| `Watchd.TrackedIsReported` | src/watchd/worker.rs:150-218 | from every state with a living worker the threads' own steps can report a tracked transaction the server knows |
| `Watchd.RequestIsAnswered` | src/watchd/runtime.rs:167-243 | so every request to track, at any depth and after any run that left the worker alive, can be answered, to the service that made it |
| `Watchd.DepthIsIgnored` | src/watchd/runtime.rs:171-186 | a tracked transaction is reported when first seen, whatever depth was asked for |
| `WatchRefinement.ThreadsRefineWatchd` | src/watchd/runtime.rs:167-243 | every step of the threads is a step of the node's watcher, or invisible |
| `AssetAmount.NumberRoundTrip` | cli/src/opts.rs:286-286 | a shown amount reads back, and is refused from 2^64 on |
| `AssetAmount.ColonRoundTrip` | cli/src/opts.rs:253-291 | the colon form reads back exactly if the asset has no colon |
| `AssetAmount.SpaceRoundTrip` | cli/src/opts.rs:253-291 | the space form reads back exactly if the asset has neither colon nor space |
| `AssetAmount.ParsedReadsBack` | cli/src/opts.rs:266-291 | whatever was parsed reads back from its colon form |
| `AssetAmount.PairNeeded` | cli/src/opts.rs:266-284 | a pair is missing exactly if the text has neither one colon nor, without colon, one space |
| `AssetAmount.PairIsRead` | cli/src/opts.rs:266-291 | the amount is read behind the colon or before the space, and refused if it is no number |
| `AssetAmount.NumbersRead` | cli/src/opts.rs:286-286 | a plus sign and leading zeros are accepted, an empty text, a lone sign and other characters are not |

## Left out

- FundingWallet.Store.ConstructFundingPsbt: the transaction builder is foreign; whether it fails although the inputs cover the fee, and the weight and id it gives, are taken to depend on the fee alone. The product of weight and rate is not wrapped, since weights are far below 2^32.
- FundingWallet.Store.ListFunds: saving is taken to succeed.
- Channeld.Runtime.ChangeIdentity: file and socket operations other than removing an absent file are taken to succeed.
- Opening.HandshakeSafety: failures of the bus, refusals by the core library and reestablishment do not occur in joint runs; single-daemon theorems cover them.
- Progress and failure reports to clients, log text and RPC information requests.
- Assertions compiled only into debug builds.
- Failures of lnpd to send over the bus and to launch a daemon.
- The core library's channel contents, signatures, key derivation and PSBT encoding.
- Payments, routing, gossip, Bifrost messages, pings and counters other than message counts.
- Hardware and RGB parts of the wallet, fee estimation, addresses and the listing of available funding.
