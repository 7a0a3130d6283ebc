# TPF3-MP, the client's protocol: a model and its proofs

TPF3-MP keeps several games in lockstep: a server orders the players' commands into
turns, every client's agent follows the turns and hands its game, through a hook,
exactly what to apply and how far to run. This project models the client's half in
Dafny and proves what it promises.

- **One trace.** `Trace` computes, from the turns alone, the one order in which a game
  applies events and runs steps. `FollowerSpec` and `Follower` are the turn follower,
  `Lockstep` its runs: any arrivals, any pace, any reconnects give a prefix of that trace.
- **Handing it over.** `Outbox` is the queue to the hook, `Pump` turns what is due into
  `Release` and `Apply` messages under an arbitrary pacing oracle, `Segments` is what a
  game hears from one load to the next, `Gate` and `Session` are the hook's reading of it.
- **Worlds replaced.** `BridgeSpec` and `Bridge` hold the bridge's state and its load
  orders; `System` joins it to the hook over two links that keep order, each message
  carrying as ghost data the load it is about. `Orders` tells from a run's steps alone
  which loads it orders; `Loads` and `Refinement` prove that only the latest order counts,
  and that every game loads what was ordered, file and step, and does a prefix of the
  canonical trace of the turns accepted for it; `Fetches` that only the latest fetch does,
  and `Told` that the hook is told the speed, the beginning and all else it should be.
- **Around it.** `HeldStream` and `Arrivals` (a stream held until the room was heard),
  `Rejoin` (how long rejoining is tried), `StartSave` and `StartDesk` (the save a room
  starts from, with late results of replaced attempts).
- **Diagnostics.** `DiagnosticsSpec` and `Diagnostics` (the bounded queue, taking and
  putting back, recordings that outlive their setting), `LogTail`, `LogAccounts`,
  `LogBudget`, `LogReader` and `LogSources` (a log read as it grows, within a budget),
  `OffSwitch` (what is written while the switch is off is never sent).
- **Requests** races many requesters with the end of the task that reads responses.
- **Two tools.** `LaneDumps`, `LaneIssues` and `LaneDiff` (reading lane dumps, what is
  missing from them, and comparing them), `MakeProfile` (building a signature that is
  found once).

A file with a `Spec` beside it, or a class in it, updates the source's fields in place;
each of its methods is proved equal to a function, and the lemmas are about these
functions. `dafny verify dfyconfig.toml` checks the whole project.

Where the documentation and the code differ, the model follows the code: docs/PROTOCOL.md
(line 628) says that a client resumes from the last turn it applied; the follower names
the last turn it accepted, whose events may still wait.

Three properties one might expect do not hold of the code. Each has a lemma with an
input, or a family of inputs, that shows it, and a lemma that says exactly when it holds:

- What is written to a log while diagnostics are off stays unsent as long as a look that
  passes the log over, under the present setting with the switch on, could look at it when
  it was there (`OffSwitch.NothingWrittenWhileOff`). One that could not takes the setting
  over all the same; the next then queues a line written while off exactly when one is
  among the lines it gives that the quota lets in and the queue keeps
  (`OffSwitch.BlindLookExactlyWhen`, and which lines these are:
  `OffSwitch.BlindLookReadsOn`; a family of such runs: `OffSwitch.BlindLookLetsThrough`).
- A signature is refused, or made longer, although its pattern is in the section once,
  exactly when its fixed bytes also stand where the rest of it would run past the
  section's end (`MakeProfile.AloneExactlyWhen`); five NOPs and a jump, with the same
  bytes cut short at the section's end, are such a function
  (`MakeProfile.RefusedThoughThereOnce`).
- The result of an upload names its snapshot and not the attempt, so one begun for a
  replaced attempt may decide the present one when the save is the same
  (`StartSave.UploadCountsExactlyWhen`, `StartSave.AnEarlierUploadCounts`).

## Model

| member | source | states |
|---|---|---|
| `Trace.CutAtTurn` | crates/tpf3mp-agent/src/follower.rs:82-104 | a log cut at any turn boundary is a log, and its trace is the two parts' traces joined |
| `Trace.CanonicalKeepsOrder` | crates/tpf3mp-agent/src/follower.rs:120-183 | the canonical trace runs every sealed step in a row and applies exactly the log's events, each after the step before its own and before its own |
| `Trace.CanonicalIsUnique` | crates/tpf3mp-agent/src/follower.rs:120-183 | it is the only trace of a log that does so |
| `FollowerSpec.AcceptsExactlyTheLog` | crates/tpf3mp-agent/src/follower.rs:120-167 | a turn is accepted if and only if it continues the log and there is room; the tip then moves past it |
| `FollowerSpec.AcceptKeepsValid` | crates/tpf3mp-agent/src/follower.rs:120-167 | accepting keeps the queue in step order within executed+1 to sealed+1, executed at most sealed, and the bytes exact |
| `FollowerSpec.HandOut` | crates/tpf3mp-agent/src/follower.rs:171-183 | each action handed out is the first of those owed; none is handed out exactly when nothing is queued and every sealed step has run |
| `FollowerSpec.NextStepForetells` | crates/tpf3mp-agent/src/follower.rs:188-193 | a next step is named if and only if executing it is the next action |
| `FollowerSpec.ExecuteClosesItsStep` | crates/tpf3mp-agent/src/follower.rs:171-183 | when a step is handed out no event for it waits, and none can still be accepted |
| `FollowerSpec.AcceptOwesTurn` | crates/tpf3mp-agent/src/follower.rs:120-167 | accepting a turn adds exactly its events and the steps it seals to what is owed |
| `FollowerSpec.OwedEvents` | crates/tpf3mp-agent/src/follower.rs:171-183 | the events owed are the queue, in order |
| `FollowerSpec.RefusedForWhatIsNamed` | crates/tpf3mp-agent/src/follower.rs:120-167 | the error a turn is refused with is true of it and names the first thing wrong |
| `FollowerSpec.NotContinuedForWhatIsNamed` | crates/tpf3mp-agent/src/follower.rs:82-104 | so is the error with which a stream does not continue |
| `FollowerSpec.BytesAreCarried` | crates/tpf3mp-agent/src/follower.rs:211-228 | the bytes counted are those the events' payloads have, and an allowance for each event |
| `Follower.TurnFollower.constructor` | crates/tpf3mp-agent/src/follower.rs:66-79 | a follower starts at its stream's frontier, valid and owing nothing |
| `Follower.TurnFollower.Restart` | crates/tpf3mp-agent/src/follower.rs:82-104 | continues only a stream that starts where it stands, and otherwise leaves every field as it was |
| `Follower.TurnFollower.Accept` | crates/tpf3mp-agent/src/follower.rs:120-167 | the turn taken in whole, or the complaint and every field as it was |
| `Follower.TurnFollower.NextAction` | crates/tpf3mp-agent/src/follower.rs:171-183 | the next action and the state after it |
| `Follower.TurnFollower.NextStep` | crates/tpf3mp-agent/src/follower.rs:188-193 | the step due next, if executing one is |
| `Follower.TurnFollower.ResumePoint` | crates/tpf3mp-agent/src/follower.rs:107-112 | the turn before the next one it would accept |
| `Lockstep.HandsOutTheTrace` | crates/tpf3mp-agent/src/follower.rs:120-183 | in every run, what was handed out is a prefix of a trace that depends on the accepted turns alone, and all of it once drained |
| `Lockstep.TwoClientsAgree` | crates/tpf3mp-agent/src/follower.rs:120-183 | of two clients on the same turns, one has done a prefix of what the other has |
| `Lockstep.NoEventStranded` | crates/tpf3mp-agent/src/follower.rs:120-192 | events applied, then events queued, are exactly those accepted, numbered in a row; none is applied early or late |
| `Lockstep.RestartsExactlyAtTip` | crates/tpf3mp-agent/src/follower.rs:82-112 | a stream continues a run if and only if it starts where the accepted turns end; the resume point is the turn before the next |
| `Lockstep.ResumesItsHistory` | crates/tpf3mp-agent/src/follower.rs:82-112 | in every run the resume point names the history of the stream last taken up |
| `Lockstep.SpeedAndRoom` | crates/tpf3mp-agent/src/follower.rs:120-167 | in every run the speed is the one the last accepted turn asks for, and the queued events carry no more bytes than may be held |
| `Lockstep.ResumingIsInvisible` | crates/tpf3mp-agent/src/follower.rs:82-112 | a run with any resumes hands out what the run without them does |
| `Lockstep.JoinerHoldsTheSameWorld` | crates/tpf3mp-agent/src/bridge.rs:1550-1572 | a game that loads a save made at a turn boundary and follows from there holds the same world as one that played on, at the same place |
| `Outbox.Box.PushBack` | crates/tpf3mp-agent/src/bridge.rs:2348-2351 | the message goes last; the bytes stay the sum of the weights |
| `Outbox.Box.PushFront` | crates/tpf3mp-agent/src/bridge.rs:2353-2360 | the message goes first; the bytes stay the sum of the weights |
| `Outbox.Box.PopFront` | crates/tpf3mp-agent/src/bridge.rs:2362-2366 | the first message goes, and its weight is never more than the bytes |
| `Outbox.Box.Retain` | crates/tpf3mp-agent/src/bridge.rs:2368-2371 | those kept stay in order; the bytes stay the sum of the weights |
| `Outbox.Box.Preview` | crates/tpf3mp-agent/src/bridge.rs:2379-2391 | a member's preview takes the place of any of theirs that waits |
| `Outbox.PreviewReplaces` | crates/tpf3mp-agent/src/bridge.rs:2379-2391 | afterwards only that one of theirs waits, everyone else's stay, and all else keeps its order |
| `Outbox.OnlyTheLatestWaits` | crates/tpf3mp-agent/src/bridge.rs:2314-2391 | over every run at most one preview of a member waits, and it is their last |
| `Outbox.WeighWhatTheyCarry` | crates/tpf3mp-agent/src/bridge.rs:2314-2346 | messages weigh their payloads and paths byte for byte, what others are said to carry, and 64 each |
| `Pump.PumpRefines` | crates/tpf3mp-agent/src/bridge.rs:2788-2825 | for any pacing, the messages put expand to exactly the actions consumed, each step due, releases strictly rising and never two adjacent |
| `Pump.PumpWithinBound` | crates/tpf3mp-agent/src/bridge.rs:2788-2825 | the outbox never exceeds what it held before, or its bound and one event with the release before it |
| `Pump.CarriedWithinBound` | crates/tpf3mp-agent/src/bridge.rs:2788-2825 | so the bytes really carried by all that waits after a call keep within that bound |
| `Pump.StopsForAReason` | crates/tpf3mp-agent/src/bridge.rs:2788-2825 | a call ends because the outbox is full, the next step is not due (and says when it is), or nothing is owed |
| `Pump.PumpedAgain` | crates/tpf3mp-agent/src/bridge.rs:2788-2825 | calls join up: messages of several still expand to the actions consumed and go on rising |
| `Pump.Pump` | crates/tpf3mp-agent/src/bridge.rs:2788-2825 | the loop itself ends, does this in place, and never takes the arm that an execute would take |
| `Pump.OneRound` | crates/tpf3mp-agent/src/bridge.rs:2788-2825 | what one pass of the loop does: what it takes from the follower and puts in the outbox, or why it is the last |
| `Session.PlaysEverySegment` | crates/tpf3mp-bridge/src/session.rs:435-479 | for every sequence of messages whose segments are in the form a gate takes, loads and messages that move nothing among them: the session refuses none, and world by world the game does exactly what each segment expands to |
| `Session.NeverOutOfOrder` | crates/tpf3mp-bridge/src/session.rs:455-479 | whatever is sent, what the game does in each world keeps the gate's order: no event out of its place, no step twice |
| `Session.NeverPastTheRelease` | crates/tpf3mp-bridge/src/gate.rs:158-222 | whatever is sent, no step runs past what was released |
| `Session.NothingAfterTheEnd` | crates/tpf3mp-bridge/src/session.rs:455-479 | told the end, the game does nothing more, whatever follows |
| `Gate.RefusesExactlyWhen` | crates/tpf3mp-bridge/src/gate.rs:158-222 | what the gate refuses, and that it takes back nothing released |
| `Bridge.Coupling.VoidWorld` | crates/tpf3mp-agent/src/bridge.rs:2097-2110 | what would move the game's old world is dropped from the outbox, the rest stays in order |
| `Bridge.Coupling.OrderLoad` | crates/tpf3mp-agent/src/bridge.rs:1974-1982 | the old world is void, a new generation begins and its load is queued last; or the path is too long |
| `Bridge.Coupling.FetchWorld` | crates/tpf3mp-agent/src/bridge.rs:1926-1970 | the old world is void and a new attempt begins |
| `Bridge.Coupling.OnStream` | crates/tpf3mp-agent/src/bridge.rs:1521-1574 | which of fetching, loading anew, continuing or faulting a stream leads to, and the state after it |
| `Bridge.Coupling.OnTurn` | crates/tpf3mp-agent/src/bridge.rs:1575-1590 | a turn goes to the follower and a new speed to the hook, or faults with nothing changed |
| `Bridge.Coupling.OnFetched` | crates/tpf3mp-agent/src/bridge.rs:1768-1796 | only the present attempt's save is loaded |
| `Bridge.Coupling.CurrentLoadAck` | crates/tpf3mp-agent/src/bridge.rs:2114-2127 | an answer is for the oldest load sent, and current only if that is the latest order's |
| `Bridge.Coupling.Hear` | crates/tpf3mp-agent/src/bridge.rs:978-1035 | what each message of the hook does, and what is reported of it |
| `Bridge.Coupling.Flush` | crates/tpf3mp-agent/src/bridge.rs:2200-2217 | messages leave in order as far as the link takes them, each load's generation noted as it does |
| `BridgeSpec.StreamFaultsExactlyWhen` | crates/tpf3mp-agent/src/bridge.rs:1550-1572 | which streams and which fetched saves are refused |
| `BridgeSpec.HearFaultsExactlyWhen` | crates/tpf3mp-agent/src/bridge.rs:978-1008 | what the hook may not say: anything before its hello, a second hello, an answer to no load or not to the oldest |
| `BridgeSpec.FlushSends` | crates/tpf3mp-agent/src/bridge.rs:2200-2217 | exactly as many of the oldest messages leave as there is room for, their loads noted in order, and nothing else changes |
| `Loads.AnswerFits` | crates/tpf3mp-agent/src/bridge.rs:2114-2127 | the next answer read is always the oldest sent load's, in step and generation, even when steps coincide |
| `Loads.EveryRunSound` | crates/tpf3mp-agent/src/bridge.rs:978-1035 | at every moment of every run, the loads noted as sent are exactly the answers still to come, generations rising |
| `Loads.EveryRunInOrder` | crates/tpf3mp-agent/src/bridge.rs:1926-1982 | at every moment of every run, whatever load waits, was sent, is on the link or with the hook, or is played, is the order its generation numbers among those of the run's steps; a waiting one is the latest |
| `Loads.OnlyTheLatestLoadCounts` | crates/tpf3mp-agent/src/bridge.rs:978-1035 | no load fault is ever raised; generations number the loads that the run's steps order, and each load sent is the order of its generation, file and step; the outbox holds no load but the latest order; the bridge is ready only by the latest order's answer, and then the hook plays that very load; every report taken is of the latest order's world |
| `Loads.HelloGoesFirst` | crates/tpf3mp-agent/src/bridge.rs:2200-2217 | the first message the hook is ever sent is the agent's hello |
| `Fetches.OnlyTheLatestFetchCounts` | crates/tpf3mp-agent/src/bridge.rs:1768-1796 | at every moment of every run, of all fetches begun only the latest, while it is waited for, orders a load, and that of the stream followed now at its step; the result of an earlier one changes nothing |
| `Fetches.EveryOrderIsForItsStream` | crates/tpf3mp-agent/src/bridge.rs:1926-1982 | in every run each load ordered is for the stream its game follows from there: of a save exactly when that stream names one, and then of the fetch begun for it |
| `Told.SpeedIsTold` | crates/tpf3mp-agent/src/bridge.rs:1575-1590 | in every run the speed last told the hook, or waiting to be, is that of the last turn accepted on the stream followed |
| `Told.GameBeginsOnce` | crates/tpf3mp-agent/src/bridge.rs:1521-1549 | in every run the hook is told once that the game begins, as soon as a stream was taken up and before any load |
| `Told.NothingElseIsLost` | crates/tpf3mp-agent/src/bridge.rs:2097-2110 | in every run, whatever worlds are replaced, all other messages are there in order, none lost or repeated, and only the last view of the lobby waits |
| `Told.PlaysAllItMay` | crates/tpf3mp-agent/src/bridge.rs:2788-2825 | in every run a call to play stops only because the outbox is full, the next step is not due or nothing is owed |
| `Told.ReportsAreWhatWasSaid` | crates/tpf3mp-agent/src/bridge.rs:1004-1031 | in every run a report taken says what the hook said, and while a world is ready the progress kept is the last one reported, while none is it is forgotten |
| `Told.EveryReportIsTaken` | crates/tpf3mp-agent/src/bridge.rs:1004-1031 | in every run each step and checkpoint of a ready world is taken, and none otherwise |
| `Refinement.EveryRunRefines` | crates/tpf3mp-agent/src/bridge.rs:1521-1590 | at every moment of every run, what was sent, what waits and what the follower owes make up each load's trace |
| `Refinement.TheGameDoesTheTrace` | crates/tpf3mp-agent/src/bridge.rs:1521-1590 | from one load to the next, what the hook has read begins with a load that the run ordered, file and step, and is a prefix of the canonical trace of the turns accepted for it; its gate refuses none of these events and releases, and the game does exactly that |
| `Refinement.NothingIsRefused` | crates/tpf3mp-bridge/src/session.rs:435-479 | in every run, of all the hook has read since the game began and before the end its gate refuses nothing, and world by world the game does just what was told between the loads, nothing before the first |
| `Refinement.NothingIsForgotten` | crates/tpf3mp-agent/src/bridge.rs:2788-2825 | while a world is ready, what was told, what waits and what is owed are the whole trace |
| `Refinement.ResumesWhereItStands` | crates/tpf3mp-agent/src/follower.rs:107-112 | in every run a client resumes after the last turn accepted on the stream followed, and not while its save is fetched |
| `Refinement.EveryGameRunsTheRoomsTrace` | crates/tpf3mp-agent/src/bridge.rs:1521-1590 | what ran before a load, then what the game was told, is how the room's one trace begins |
| `HeldStream.HeldInOrder` | crates/tpf3mp-agent/src/bridge.rs:1494-1520 | for every order of arrivals, whatever belongs to the game takes effect in that order with none lost or repeated, and so does all else; no stream before both view and mods were heard; what waits is counted exactly, within both bounds, and carries no more bytes |
| `HeldStream.FaultsExactlyPastTheBounds` | crates/tpf3mp-agent/src/bridge.rs:1494-1510 | it faults if and only if the next event that waits would pass a bound |
| `HeldStream.CountsWhatItCarries` | crates/tpf3mp-agent/src/bridge.rs:538-544 | what waits is counted with every byte its events carry |
| `Arrivals.Connection.OnNewConnection` | crates/tpf3mp-agent/src/bridge.rs:664-670 | a new connection hears everything anew |
| `Arrivals.Connection.OnEvent` | crates/tpf3mp-agent/src/bridge.rs:1485-1738 | what one event makes take effect, in place, with the loop that lets go what was held |
| `Rejoin.RejoiningIsBounded` | crates/tpf3mp-agent/src/bridge.rs:2553-2593 | between connections that held, every deadline granted is the same instant and still ahead, and at most five are granted, and one more for the loss of a connection that held |
| `Rejoin.RefusedExactlyWhen` | crates/tpf3mp-agent/src/bridge.rs:2565-2588 | a loss is refused if and only if it is one too many of its stretch or the patience has run out |
| `Rejoin.RefusedForWhatIsNamed` | crates/tpf3mp-agent/src/bridge.rs:2565-2588 | the reason given is true: how often the connection was lost again in its stretch, or that the patience ran out |
| `Rejoin.Tracker.Lose` | crates/tpf3mp-agent/src/bridge.rs:2565-2588 | the deadline or the reason, and the counters after it |
| `StartSave.EveryRunSound` | crates/tpf3mp-agent/src/bridge.rs:1198-1362 | in any order of late results no attempt is cut, told or taken back twice; told and uploaded carry the present attempt's snapshot, cut from the file now named and what the room was last told; uploaded means it is held, told and clearing that none is |
| `StartSave.ReplacedStaysReplaced` | crates/tpf3mp-agent/src/bridge.rs:1816-1855 | the results of a replaced attempt change nothing, ever again |
| `StartSave.CountsOnce` | crates/tpf3mp-agent/src/bridge.rs:1816-1855 | a result that counted changes nothing when heard again at any later time |
| `StartSave.UploadCountsExactlyWhen` | crates/tpf3mp-agent/src/bridge.rs:1802-1815 | an upload's result counts if and only if its snapshot is the one the room was last told and waits for |
| `StartSave.UploadLeadsTo` | crates/tpf3mp-agent/src/bridge.rs:1802-1815 | in every run, when the room was last told a save and waits for it, its upload leaves it arrived and held, a failed one leaves nothing held or told; any other result changes nothing |
| `StartSave.CutLeadsTo` | crates/tpf3mp-agent/src/bridge.rs:1816-1843 | in every run, a cut for the present attempt is told to the room once and awaited, or arrived already when it is the save held, told last; one that failed is given up |
| `StartSave.AnswersLeadTo` | crates/tpf3mp-agent/src/bridge.rs:1844-1857 | in every run, a refusal gives the save up and a taking-back leaves none told or held, only for the present attempt while it waits for that |
| `StartSave.ChangeLeadsTo` | crates/tpf3mp-agent/src/bridge.rs:1266-1362 | in every run, naming a save in the owner's lobby describes the one told anew, or begins a new attempt and its cut, or has the room told that there is none; elsewhere it does nothing |
| `StartSave.AHandOverArrives` | crates/tpf3mp-agent/src/bridge.rs:1198-1239 | a save named by an owner in its lobby, handed over, is cut, told and asked for once and is then held |
| `StartSave.CutsExactlyInItsLobby` | crates/tpf3mp-agent/src/bridge.rs:1198-1239 | in every run a save is cut only while the view last heard is of a lobby this player owns, before the game, and then is; otherwise it waits or is let go |
| `StartSave.GivenUpExactlyWhen` | crates/tpf3mp-agent/src/bridge.rs:1654-1676 | in every run a view gives a save up exactly when this player still owns the lobby and the room, which showed it by name, shows none |
| `StartSave.AnEarlierUploadCounts` | crates/tpf3mp-agent/src/bridge.rs:1802-1815 | a run in which the only upload ever begun is of an attempt since taken back, and its failure fails the present one at the same save |
| `StartDesk.Owner.HandOver` | crates/tpf3mp-agent/src/bridge.rs:1198-1239 | when the save named is cut, waits, or is given up |
| `StartDesk.Owner.Change` | crates/tpf3mp-agent/src/bridge.rs:1266-1362 | another save, none, or the same one described anew |
| `StartDesk.Owner.OnDone` | crates/tpf3mp-agent/src/bridge.rs:1802-1857 | what each result does, and the job it starts |
| `StartDesk.Owner.OnView` | crates/tpf3mp-agent/src/bridge.rs:1654-1676 | when the room's view shows that it gave up on the save |
| `DiagnosticsSpec.PushesKeepTheNewest` | crates/tpf3mp-agent/src/diagnostics.rs:256-268 | pushing keeps the newest of what waited and what the quota lets in, and counts every other line as dropped |
| `DiagnosticsSpec.PutBackKeepsTheNewest` | crates/tpf3mp-agent/src/diagnostics.rs:298-307 | putting back keeps the newest of the batch and what waits, and counts every other line as dropped |
| `DiagnosticsSpec.FailedUploadInvisible` | crates/tpf3mp-agent/src/diagnostics.rs:256-307 | take, any pushes, put back is the pushes alone, in lines, order and both counts, if and only if the queue may keep a line or had none |
| `DiagnosticsSpec.FailedUploadLosesNothing` | crates/tpf3mp-agent/src/diagnostics.rs:88-101 | in every run from a new recorder: what an upload takes with the switch on and, after any records and any work of settings since left, puts back, leaves the recorder as these alone do |
| `DiagnosticsSpec.TakesTheOldest` | crates/tpf3mp-agent/src/diagnostics.rs:88-94 | with the switch on an upload takes lines from the front of the queue, as many as one batch holds |
| `DiagnosticsSpec.RecordsArePushes` | crates/tpf3mp-agent/src/diagnostics.rs:66-87 | with the switch on and unmoved, the lines recorded under the setting are pushed in order, others not |
| `DiagnosticsSpec.CountsAreOfTheRun` | crates/tpf3mp-agent/src/diagnostics.rs:186-195 | moving the switch gives back none of the quota and forgets none of the lines dropped |
| `DiagnosticsSpec.EveryRunAccounts` | crates/tpf3mp-agent/src/diagnostics.rs:351-379 | over every run of uploads, lines sent, on their way and waiting are in the order pushed with none twice, and every line pushed is one of these or counted |
| `DiagnosticsSpec.OldRecordingIsInert` | crates/tpf3mp-agent/src/diagnostics.rs:66-101 | a recording can add, take or put back if and only if it began with the switch on and the switch was not moved since |
| `DiagnosticsSpec.OffMeansEmpty` | crates/tpf3mp-agent/src/diagnostics.rs:186-195 | in every run, off means that nothing waits |
| `Diagnostics.LineQueue.Push` | crates/tpf3mp-agent/src/diagnostics.rs:256-268 | one push, in place |
| `Diagnostics.LineQueue.Take` | crates/tpf3mp-agent/src/diagnostics.rs:291-295 | a batch of the oldest lines at most, taken out |
| `Diagnostics.LineQueue.PutBack` | crates/tpf3mp-agent/src/diagnostics.rs:298-307 | the loop from the newest line back, in place |
| `Diagnostics.Switch.SetOn` | crates/tpf3mp-agent/src/diagnostics.rs:186-195 | a generation more when the switch is moved; off clears the queue |
| `LogAccounts.LinesInPieces` | crates/tpf3mp-agent/src/game_logs.rs:197-211 | splitting into lines does not depend on how the bytes came |
| `LogAccounts.EveryByteOnce` | crates/tpf3mp-agent/src/game_logs.rs:138-213 | on a log that only grows, every byte is given out in a line or passed over once and in order, or is of the unfinished line; no line given is the rest of one whose start was passed over |
| `LogAccounts.BytesAddUp` | crates/tpf3mp-agent/src/game_logs.rs:138-213 | bytes given out, bytes reported skipped and the unfinished line add up to the bytes passed |
| `LogAccounts.ExactlyTheLines` | crates/tpf3mp-agent/src/game_logs.rs:138-213 | with nothing skipped and no line of what was passed too long, the lines are exactly the complete lines that are not blank, however growth was chunked |
| `LogAccounts.FollowedFromItsEnd` | crates/tpf3mp-agent/src/game_logs.rs:109-119 | of what a log held when it was first followed nothing is given |
| `LogAccounts.RemembersItsDate` | crates/tpf3mp-agent/src/game_logs.rs:138-160 | a file of another date than any look saw is taken for made anew, whatever looks could not see a date between |
| `LogBudget.LookSpends` | crates/tpf3mp-agent/src/game_logs.rs:69-81 | a look reads no more than there is, so spending is never clamped |
| `LogBudget.ReadsWithinTheBudget` | crates/tpf3mp-agent/src/game_logs.rs:61-81 | between any two looks no more is read than a minute's worth and what the time between refills |
| `LogBudget.NeverLessThanTheRefill` | crates/tpf3mp-agent/src/game_logs.rs:69-81 | after any looks in order of time, what may be read and what they read are no less than what the budget held and time refilled, up to a minute's worth |
| `LogBudget.FullAgain` | crates/tpf3mp-agent/src/game_logs.rs:69-75 | a minute refills the budget, whatever was spent |
| `LogBudget.LookReads` | crates/tpf3mp-agent/src/game_logs.rs:138-213 | a look at a readable log reads all that waits, but no more than a minute's worth, the newest, nor than may be read; what it passes over is the excess and the rest of the line that cut, no more |
| `LogBudget.NothingWaitsLong` | crates/tpf3mp-agent/src/game_logs.rs:138-213 | a minute after the last look, a look that can read the log reads to its end |
| `LogBudget.ReadFromItsStart` | crates/tpf3mp-agent/src/game_logs.rs:138-160 | a file made anew is followed from its start as one never read |
| `LogReader.Meter.Refresh` | crates/tpf3mp-agent/src/game_logs.rs:69-75 | the budget refilled to a time, and what is available |
| `LogReader.Follower.SkipToEnd` | crates/tpf3mp-agent/src/game_logs.rs:127-134 | passes to the end if the file can be looked at, and forgets the unfinished line |
| `LogReader.Follower.Poll` | crates/tpf3mp-agent/src/game_logs.rs:138-213 | the lines and the bytes skipped of one look, in place |
| `LogReader.Follower.GiveLines` | crates/tpf3mp-agent/src/game_logs.rs:197-211 | the loop over newlines gives exactly the complete lines and leaves the rest |
| `LogSources.Source.Record` | crates/tpf3mp-agent/src/game_logs.rs:418-435 | a look goes by the setting it began under: lines recorded one by one, or everything passed over |
| `LogSources.LinesArePushed` | crates/tpf3mp-agent/src/game_logs.rs:418-435 | a look's lines are pushed in order while its setting stands, and come to nothing once it was left |
| `OffSwitch.NothingWrittenWhileOff` | crates/tpf3mp-agent/src/game_logs.rs:418-435 | for every timing of toggles, writes, looks and uploads in which no passing look under the present setting, switched on, was blind to a log that was there: every line waiting is of the present setting, none waits while off, and no line ever taken was written while off |
| `OffSwitch.BlindLookLetsThrough` | crates/tpf3mp-agent/src/game_logs.rs:127-134 | a family of runs that break the rule: a line written to an empty log while off is queued once on again if and only if the look that should pass it over cannot look at the file |
| `OffSwitch.BlindLookExactlyWhen` | crates/tpf3mp-agent/src/game_logs.rs:127-213 | from any sound state in which such a look is about to act: a line written while off is queued after the next look if and only if one is among the newest that may be kept of the lines, not blank, which the next look gives and the quota lets in |
| `OffSwitch.BlindLookReadsOn` | crates/tpf3mp-agent/src/game_logs.rs:138-213 | when the file was not made anew and neither budget, quota nor number is passed, these are the complete lines of the bytes from the tail's place, and one of them written while off is all it takes |
| `Requests.EveryRunSound` | crates/tpf3mp-agent/src/lib.rs:944-971 | in every interleaving a sender is alive only in the map, with the reader or with a request not yet entered |
| `Requests.NoneIsStranded` | crates/tpf3mp-agent/src/lib.rs:1074-1079 | once the reader is done every waiting request has its response or a dropped sender, and an entry left is of a request about to see the flag and remove it |
| `Requests.EachItsOwnResponse` | crates/tpf3mp-agent/src/lib.rs:1026-1033 | a request that ends with a response ends with the one heard for it, the only one |
| `Requests.EndsByWhatWasHeard` | crates/tpf3mp-agent/src/lib.rs:962-972 | in every run a request that waits and hears ends with its response if and only if one was heard for it and handed over, disconnected if and only if none was and its sender was dropped, and else waits on |
| `Requests.EveryResponseArrives` | crates/tpf3mp-agent/src/lib.rs:1026-1033 | in every run, a response read for a request that waits ends it with that response |
| `Requests.TimesOut` | crates/tpf3mp-agent/src/lib.rs:962-972 | a request not answered in time ends with a timeout and has no entry |
| `Requests.IsSentUnlessTheReaderIsDone` | crates/tpf3mp-agent/src/lib.rs:944-961 | a request entered is sent and waits unless the reader is done or it cannot be sent; then it ends disconnected and has no entry |
| `Requests.ComesToItsEnd` | crates/tpf3mp-agent/src/lib.rs:944-971 | once the reader is done, in every further run each request takes at most four steps of its own and is over after four, whatever others do between them; until then its next step always goes on, and then it has no entry |
| `LaneDumps.ReadDumps` | tools/lane_diff.py:114-193 | every dump holds exactly what its checkpoint's lines say of its lane; every entry is said by a dump of its lane and step, and no dump says anything else; every entry is in the lines of a dump of its lane, and two dumps of one checkpoint that hold entries are of different lanes; it has no issue with its checkpoint if and only if a trailer of the same step counts every entry and leaves none out; checkpoints follow each other; every lane a trailer names has a dump |
| `LaneDumps.EachEntryInOneDump` | tools/lane_diff.py:114-193 | every entry line is held by one dump and no other: of its lane and step, with the line among the dump's own, and its entry in it |
| `LaneDumps.OnEntry` | tools/lane_diff.py:136-162 | an entry goes on an open capture, or begins one, leaving a checkpoint without a trailer if it must |
| `LaneDumps.OnTrailer` | tools/lane_diff.py:164-189 | a trailer ends its checkpoint, with a dump for each lane it names that nothing was captured of |
| `LaneIssues.Gather` | tools/lane_diff.py:80-90 | one pass over the entries gives the route records captured of each vehicle, and what its latest row with each field says |
| `LaneIssues.Issues` | tools/lane_diff.py:53-101 | everything that is wrong with a capture is found, with its numbers, and nothing else |
| `LaneIssues.CompleteExactlyWhen` | tools/lane_diff.py:53-101 | a capture has no issue if and only if its checkpoint has none, it was read to its summary, as many rows were captured as this declares, and of every vehicle as many route records as it declares, none omitted |
| `LaneIssues.FieldIsTheLast` | tools/lane_diff.py:80-90 | a vehicle's field is what the last row that gives it says, and unknown only when none does |
| `LaneIssues.CountsEachPath` | tools/lane_diff.py:80-85 | route records are counted one for each entry that is one |
| `LaneDiff.Keyed` | tools/lane_diff.py:216-222 | the texts of each name, in order, repeated names repeated |
| `LaneDiff.Compare` | tools/lane_diff.py:251-344 | the number of names known to differ, or 1 when only the summaries, all there, differ; positive if and only if one of these is so |
| `LaneDiff.NoDifferenceIsAgreement` | tools/lane_diff.py:251-344 | where every capture is complete, finding no difference is agreeing in every summary and every entry after ignored fields |
| `LaneDiff.Verdict` | tools/lane_diff.py:382-418 | exit 0 if and only if something is selected and everywhere all games have as many captures, complete and agreeing; 1 if and only if a difference was found; else 2 |
| `LaneDiff.CompareLogs` | tools/lane_diff.py:356-418 | the same from the logs' lines: 0 if and only if all selected agree, 1 if and only if a difference was found, else 2, and the dumps compared are what the lines say |
| `LaneDiff.ExitZeroMeans` | tools/lane_diff.py:382-418 | what exit 0 says of the lines: every selected capture is certified by its trailer, read to its summary, holds the rows this declares and the route records its vehicles declare with none omitted, and is paired with captures that agree |
| `LaneDiff.ExitZeroCoversEveryEntry` | tools/lane_diff.py:382-418 | with exit 0 no entry of a selected lane and step is outside such a capture |
| `MakeProfile.BuildTarget` | tools/re/make_profile.py:212-286 | the fewest instructions from the prologue's on that are found at the function alone, or a refusal exactly when there are none |
| `MakeProfile.Extend` | tools/re/make_profile.py:256-284 | the loop that lengthens the pattern and filters its candidates |
| `MakeProfile.Prologue` | tools/re/make_profile.py:238-254 | the fewest straight instructions that cover the bytes to steal, or none exactly when there are none |
| `MakeProfile.Refilter` | tools/re/make_profile.py:280-284 | exactly the candidates the new bytes do not rule out, in order |
| `MakeProfile.SignatureMatchesOnce` | tools/re/make_profile.py:212-286 | a signature matches the section exactly once, at its function, within the function and the length allowed, and its prologue is the function's own bytes |
| `MakeProfile.AloneExactlyWhen` | tools/re/make_profile.py:262-284 | the pattern is taken for unique if and only if it matches once and its fixed bytes are nowhere that the rest runs past the section's end |
| `MakeProfile.RefusedThoughThereOnce` | tools/re/make_profile.py:280-284 | a function of x86 code refused, with the fewest bytes the tool will steal, although its pattern is in the section once |

## Left out

- Connections: QUIC, tunnels, handshakes, sockets and files are not modelled; what is left of them is order of delivery, disconnection, and whether a look or a read succeeded.
- Playout: the pacing is an arbitrary function from steps to times; `Pump` asks it as the source does.
- Hook: it is taken to finish loads in order and to answer each once; `Session` models what it does with messages, one at a time, when no step may run.
- Hook messages that only report: lane digests and AI questions are one kind of report, the check of versions and scan plans is not modelled, and that the bridge sends `ToHook::End` is not either.
- Saves the game makes: their ingest and their report, which names an event and not a world, are outside the claim about the latest world.
- WorldUnavailable: a fetch that fails ends the session without changing the model's state.
- Snapshot store and transfer: a save is a number, uploading one a result that comes later.
- Readiness, status text, notices, chat, lobby window, mods and AI seats: display, or messages that only pass through the outbox.
- 64-bit counters: counters are unbounded naturals except those on the wire; `executed + 1`, generations, attempts and request numbers do not wrap.
- StartSave.EveryRunSound: results may come in any order and even twice, which is more than the tasks can do; that messages to the room arrive in the order they were started is not claimed.
- Requests.ComesToItsEnd: that a request's steps come is the scheduler's.
- DiagnosticsSpec.EveryRunAccounts: one upload at a time, as the source has it, and no toggle between; toggles are in `Uses` and in `OffSwitch`.
- Refinement.NothingIsRefused: the greeting and the game's beginning, which the session hears before its gate, reading ahead of released steps, and the saves some events ask for, are not modelled.
- Bridge.Coupling.OnStream: the view and the mods were heard (`Arrivals` holds a stream until then), so the fault for a missing view is not modelled; what the bridge holds after a fault, which ends the session, is not said.
- Bridge.Coupling.OnFetched: a fetch that fails, and the check of the save's mods, are not modelled.
- Bridge.Coupling.Hear: the versions in a hello are not checked, and reports other than steps, checkpoints and loads are of one kind.
- Arrivals.Connection.OnEvent: being kicked, a room closed and the fault of a room's scan plan are not modelled.
- LogSources.Source.Record: one log; the source keeps several of them, and error reports, under one setting.
- Lines' redaction, decoding and trimming: a line's weight is given, and which lines are shown is a function from bytes.
- Crash reports: read by the same budget, but not followed.
- LogAccounts.EveryByteOnce: the log only grows; a file made anew is read from its start, which is where such a run begins.
- LogBudget.ReadsWithinTheBudget: time and tokens are real numbers, and time does not run backwards.
- OffSwitch.NothingWrittenWhileOff: one followed log; a file made anew is empty, and no file with other bytes is moved into its place.
- LaneDumps.ReadDumps: lines come parsed; dumps are kept in sequence and found by lane and step, where the source keeps a dictionary of lists of shared objects, so aliasing is not captured.
- LaneDiff.Verdict: how a row's name, its text and a summary are parsed is a parser given (`LaneIssues.Parser`), and how ignored fields are taken out of a text a function; what is printed is not modelled, and logs given the same name are one log.
- MakeProfile.BuildTarget: the decoder is a function given, whose instructions are a non-empty prefix of the code.
- Profiles, build scripts, release, lobby page and download tools: constants and plumbing.
