# A verified model of the deCONZ REST plugin's state machines

This Dafny project models the parts of the deCONZ REST plugin whose correctness depends on long runs of
events, and proves what every run keeps. `dafny verify dfyconfig.toml` checks all of it.

What is modelled, one group of files for each part:

- **The device supervisor** (`device.cpp`): `DeviceData`, `BindingMachine`, `PollMachine` and `DeviceMachine`
  specify the three state levels as functions on records; `Device` is the class with the plugin's own fields,
  whose handlers are proved equal to those functions, loop by loop. A run is any sequence of steps: the next
  queued event is delivered (urgent events first), a timer fires, or bindings are added or cleared from
  outside. Everything the APS controller, the node cache, the clock and the resource items answer is an
  arbitrary input of the step. `BindingLaws`, `PollLaws` and `DeviceLaws` say message by message what each
  level does, in terms of states, timers and requests and without the names of the handlers.
  `BindingInvariant`, `BindingTrackers`, `ReportPhase`, `ReportCheck`, `DeviceRuns`, `DeviceTrackers` and
  `DeviceTheorems` hold the invariants, the termination measures and the main results. `InterviewRuns` and
  `AnsweredRuns` show that a device which confirms and answers everything gets to the end: it is interviewed,
  bound and checked. `ReportRuns` and `SharedRuns` drive a device from construction into the states in which a
  report check goes wrong.
- **The event emitter** (`event_emitter.cpp`): `EventEmitter` proves the delivery order the supervisor relies on.
- **The alarm systems** (`alarm_system.cpp`, `alarm_system_event_handler.cpp`, `alarm_system_device_table.cpp`):
  `AlarmSystem` is one timed system, `AlarmDeviceTable` the swap-remove table with its database rows, and
  `AlarmWorld` any number of systems with their devices and events. `AlarmLaws` says event by event what a
  system does and how an alarm comes about, `AddressLaws` what address a unique id has.
- **The channel change** (`change_channel.cpp`): `ChannelChange`; `ChannelLaws` says step by step what it does,
  how it ends, and that it succeeds with a network that follows.
- **Binding tables** (`bindings.cpp`): `Bindings` is the entry format, `BindingTable` the reconciliation of
  queued tasks with a table read in pages, `BindingReaders` the timer that reads tables.
- **DDF bundles** (`device_ddf_bundle.cpp`, and the loop in `device_descriptions.cpp` that uses it): `DdfBundle`.
- **HSV and HSL** (`colorspace.cpp`): `ColorSpace`, over exact real numbers; `ColorLaws` says what the
  coordinates mean.
- **Free ids** (`database.cpp`): `FreeIds`.

`Basics`, `LittleEndian` and `Vectors` are shared. Where the source updates fields in place there is a class
or a loop proved against a function, and the properties are proved about the function. Names ending in
`History`, the fields called `h`, the ledger of the report trackers and the counters of lost events are
bookkeeping for the proofs; no handler reads them.

## Where the code and expectations differ

The model follows the code. These points are stated as theorems or kept as written:

- The comment in `Device::handleEvent` says that the branch for an event that meets a locked level should
  never hit (device.cpp:2374-2378). It does hit: the device widget calls `handleEvent` with a reload from its
  own timer (ui/device_widget.cpp:482), and while a StateEnter of level 0 is queued that reload is lost
  (`DeviceTheorems.FirstReloadIsLost`, `DeviceTheorems.LaterReloadIsLost`). `DeviceTheorems.EventIsLostIff`
  proves that nothing else is ever lost, `DeviceTheorems.NoQueuedEventIsLost` that no queued event is.
- In later check rounds a report is passed over when its tracker's value is less than an hour old. The value
  need not be the time of a check of that report: a new tracker holds 0, an abandoned request leaves its busy
  mark, the answer to one request stamps the marks of abandoned ones too, and a tracker knows cluster,
  attribute and endpoint only (device.cpp:93-100), so reports that differ in manufacturer code or intervals
  share it. `DeviceTheorems.SkippedReports` is exact. `DeviceTheorems.OwnTrackerDecides` and
  `DeviceTheorems.OverdueReportsAreCovered` say what holds for a report that never shared its tracker.
  `ReportRuns.NeverCheckedIsSkipped`, `ReportRuns.StaleMarkIsSkipped`, `SharedRuns.SharedTrackerIsSkipped` and
  `SharedRuns.ReplacedReportIsSkipped` are runs in which a report is passed over that was never checked. In
  those of `SharedRuns.SecondReportStarves` a report is checked in the first round and never again.
- In check rounds after the first, a follow-up configure request can be empty, and the machine then gives up
  with the binding unfinished (`ReportRuns.FollowUpCanBeEmpty` is a run, `ReportPhase.EmptyFollowUpIff` the
  exact condition).
- A device that repeats one record of a read-report response can pass the check although another record is
  missing, or fail it although all records are there (`ReportCheck.RepeatedAnswerIsAccepted`,
  `ReportCheck.RepeatedAnswerIsRejected`; `ReportCheck.CountingIsRightIff` is exact).
- Only the first queued task for a binding takes notice of a table entry, and tasks are told apart by their
  action as well (rule.cpp:743-752), so with a bind and an unbind task queued for the same binding the second
  one is decided wrongly when the binding is in the table (`BindingTable.SecondTaskIsDecidedWrongly`;
  `BindingTable.Reconciled` is exact).
- Stay and night mode take their trigger duration from the exit delay item (alarm_system.cpp:286-287).
- The confirm in `DEV_PollBusyStateHandler` stops the level 0 timer before it restarts its own
  (device.cpp:2080-2081).
- `AS_DeviceTable::put` accepts alarm system id 0, but such a row is not loaded again
  (`AlarmDeviceTable.ReloadExact` is exact).
- An EXTF chunk that cannot be parsed takes the following chunk along, because the reader has already moved
  behind it and the caller skips another one (`DdfBundle.MalformedFileHidesTheNext`;
  `DdfBundle.AllFilesRecoveredIff` is exact).
- The DDFB chunk may also lie behind the RIFF chunk instead of inside it (`DdfBundle.ValidBundleIff`).
- `EventEmitter::timerFired` restarts its timer for waiting normal events only, so urgent events could be
  left without a timer if the clock allowed no round at all (`EventEmitters.EventEmitter.TimerFired` is exact).
- While the controller is missing, a confirm or a reconnect attempt leaves the channel change without an armed
  timer (`ChannelChange.StaysArmedIff` is exact).

## Assumptions

- `U_BStream` and `QDataStream` are not part of this model's sources. A number behind the end of a
  `U_BStream` reads as 0, does not move the position and sets a status that stays; a short `QDataStream` read
  yields 0 and consumes the rest.
- An event says the same as another exactly when `isDuplicate` finds it so; whether an event's data is still
  in the shared buffer is a property of the event.
- A ZCL frame takes six records (zcl.h). Every DDF binding is a unicast or a group binding.
- Report trackers are a map from cluster, attribute and endpoint to the time of the last check; a time
  counts as valid when it is not zero.
- The confirm of a channel change reaches the machine only while it waits for one (de_web_plugin.cpp:1555).
- A failed `Q_ASSERT` or an index out of range sets a fault flag in the model; the invariants prove that it
  never happens in the device supervisor.

## Model

| member | source | states |
|---|---|---|
| DeviceTheorems.Hierarchy | device.cpp:2354-2460 | In every state any run of steps can reach, the binding and poll sub-machines run only while level 0 is in Idle, a set lock means that level's StateEnter is still queued, the level 0 timer rests in GetDeviceDescription and Idle, and no failed assertion ever happens in PollNext |
| DeviceTheorems.NoQueuedEventIsLost | device.cpp:2372-2381 | With urgent events delivered first, over all runs no event that comes out of the queue is thrown away because its level is locked |
| DeviceTheorems.EventIsLostIff | device.cpp:2372-2381 | Over all runs, a step throws an event away if and only if it is the device widget's direct call of handleEvent with a reload (ui/device_widget.cpp:482) while the level 0 lock is set |
| DeviceTheorems.FirstReloadIsLost | ui/device_widget.cpp:473-485 | A run that loses a reload: the widget's timer fires right after construction |
| DeviceTheorems.LaterReloadIsLost | ui/device_widget.cpp:473-485 | Another one: the timer fires right after a query of level 0 has timed out |
| DeviceTheorems.NoWedge | device.cpp:1029-1782 | Over all runs, a binding sub-state other than BindingHandler and a poll sub-state other than PollIdle always has an undelivered StateEnter, an undelivered BindingTick (only in the two table states) or the timer of its own level |
| DeviceTheorems.IndexSafety | device.cpp:1136-1763 | Over all interleavings of events, timeouts, addBinding and clearBindings, bindings and their tracker list have equal length, `bindingIter` is in range wherever it is used, and `configIter <= reportIter <= reporting.size()` in the report phase |
| DeviceTheorems.Coverage | device.cpp:1488-1763 | Whenever a report phase ends in the next binding, every report index was in a read batch that verified or in a configure request answered with success; only in later check rounds may it have been passed over instead; n reports cost at most n requests of each kind |
| DeviceTheorems.SkippedReports | device.cpp:1519-1527 | Over all runs, a report is passed over only in later rounds and only with a tracker value less than an hour old; the answer that wrote the value was this report's own last check if and only if the value is a stamp over the mark of the very request that was answered and that request asked for this very report, not just for one with the same cluster, attribute and endpoint; an unwritten tracker holds 0 and a marked one the busy mark |
| DeviceTheorems.OwnTrackerDecides | device.cpp:1784-1808 | If no other report that was ever added to the device has its cluster, attribute and endpoint, a report passed over was really checked if and only if the stamp replaced the mark of the request that was answered |
| DeviceTheorems.OverdueReportsAreCovered | device.cpp:1516-1551 | Over all runs, a phase that ends covers every report, or passed over one whose own last check is less than an hour old, provided that the reports passed over had their trackers to themselves, no stamp on a stale mark, and a clock past the first hour |
| SharedRuns.SharedTrackerIsSkipped | device.cpp:1784-1808 | For any two different reports of two bindings with one tracker there is a run from construction on in which the second is passed over as fresh although no request ever asked for it |
| SharedRuns.ReplacedReportIsSkipped | device.cpp:2508-2568 | The same when clearBindings and addBinding put the second report in the place of the first |
| SharedRuns.SecondReportStarves | device.cpp:1514-1601 | For any binding with two reports of one attribute and different manufacturer codes and any number of later rounds, one an hour, there is a run in which every later round checks the first report and passes over the second, last checked in round 0 |
| BindingTrackers.AnswerStampsItsOwnIff | device.cpp:1591-1601 | A verified answer stamps the trackers of its own request only, if and only if no other tracker is still marked when it arrives |
| BindingTrackers.AnsweringKeeps | device.cpp:1591-1601 | An answer keeps the ledger right: a stamp replaces the mark of the answered request exactly when that request asked for a report with this tracker, and it is the last check of exactly the reports asked for |
| BindingTrackers.FillBatchTrackers | device.cpp:1514-1551 | Filling a read request marks the trackers asked for, creates missing ones with value 0 and changes no other |
| BindingTrackers.OtherMessagesTouchNothing | device.cpp:970-1782 | No other message of the binding machine writes a tracker |
| DeviceTrackers.TrackersReachable | device.cpp:1488-1625 | The ledger of who wrote which tracker value is right after any run of the device |
| ReportRuns.NeverCheckedIsSkipped | device.cpp:1516-1527 | A run from construction on in which a report that was never checked is passed over, because the clock shows less than an hour |
| ReportRuns.StaleMarkIsSkipped | device.cpp:1591-1601 | A run from construction on in which an abandoned request's mark is stamped with the answer to another request, and its report is passed over without ever having been checked |
| DeviceTheorems.PollBound | device.cpp:1914-2126 | Over all runs no item is read more than three times in a session, every queued item has `retry < 3`, and every started session is finished, cut short by leaving Idle, or still running |
| DeviceTheorems.FinishEmitsPollDone | device.cpp:1983-2126 | A running session counts as finished exactly when the machine emits REventPollDone, exactly when it leaves the two busy states |
| DeviceRuns.Reachable | device.cpp:2354-2460 | The whole invariant of device, binding machine and poll machine holds after any finite sequence of steps from construction |
| DeviceRuns.StepKeeps | device.cpp:2354-2460 | Every single step keeps that invariant: the next event, a timer, or a call of addBinding or clearBindings |
| DeviceRuns.EnterKeeps | device.cpp:2354-2404 | Delivering the next urgent StateEnter keeps the invariant at whatever level it belongs to |
| DeviceRuns.EventKeeps | device.cpp:2354-2404 | Delivering the next normal event keeps the invariant, reload events included |
| DeviceRuns.FireKeeps | device.cpp:2446-2460 | A timeout of any level, which bypasses the locks, keeps the invariant |
| DeviceRuns.LeaveIdleKeeps | device.cpp:903-963 | Leaving Idle switches both sub-machines and their timers off while left-over StateEnter events may stay queued |
| DeviceRuns.ReloadKeeps | device.cpp:2354-2371 | The two reload events restart the device from any state |
| DeviceRuns.ClearKeeps | device.cpp:2508-2516 | clearBindings at any time keeps the invariant |
| DeviceRuns.OutsideCallsKeep | device.cpp:2332-2352 | Arriving events and the setters for management and binding table support keep the invariant |
| ReportPhase.EnterProgresses | device.cpp:1488-1763 | The StateEnter of a report state always moves on: bindings left, reports to read, reports to configure, or the place in the request cycle goes down lexicographically, or the machine gives up until the next poll |
| ReportPhase.EventProgresses | device.cpp:1488-1763 | Every answer, confirm and timeout in a report state gives up, changes nothing, or lowers the same measure, which never falls below zero |
| ReportPhase.VerifiedMeansConfigured | device.cpp:1433-1625 | The batch last read verifies exactly when the device answered each of its reports with the configuration of the DDF, also when reports were added to the binding in between |
| ReportPhase.MergeKeepsDistinct | device.cpp:2530-2543 | Reports added by a merge can be told apart from those already there |
| ReportPhase.NoEmptyConfigureInRound0 | device.cpp:1648-1763 | In check round 0 no configure request is empty |
| ReportPhase.FailedBatchIsConfigured | device.cpp:1589-1763 | In any round the first configure request after a failed read batch is not empty |
| ReportPhase.EmptyFollowUpIff | device.cpp:1648-1763 | After a failed read batch, and with every request answered with success, the phase meets an empty configure request if and only if the number of reports with the batch's manufacturer code from `configIter` to `reportIter` is a multiple of six and the last report read has another code |
| ReportPhase.FillConfigCounts | device.cpp:1665-1691 | A configure request takes all reports of the code up to `reportIter`, or stops behind the record that made it full |
| ReportPhase.ConfigureStartsConfiguring | device.cpp:1648-1663 | Every configure request of a run starts from a state to which that condition applies |
| ReportRuns.FollowUpCanBeEmpty | device.cpp:1488-1763 | A run from construction on that gets there: seven reports, a failed batch, six reports configured with success, and a follow-up request without records with which the machine gives up |
| BindingInvariant.EmptyConfigureRequest | device.cpp:1665-1707 | A configure request is empty if and only if no report still to be configured has the manufacturer code of the last read request |
| BindingInvariant.FillBatchDone | device.cpp:1514-1551 | The loop that fills a read request picks increasing indices of one manufacturer code; in round 0 none is passed over, later only those whose tracker value is less than an hour old; a full batch stands on its last record |
| BindingInvariant.ReadBatchDone | device.cpp:1488-1557 | The same for the read request that starts at `reportIter` |
| BindingInvariant.FillConfigDone | device.cpp:1665-1691 | The loop that fills a configure request picks exactly the indices of the code between where it starts and where it stops, and it always advances |
| BindingInvariant.ProcessNextBindingKeeps | device.cpp:1261-1267 | A phase that is complete ends in the next binding with a record of complete coverage |
| BindingInvariant.ReadReportEnterKeeps | device.cpp:1488-1570 | Sending a read request, or finding nothing to read, keeps the invariant of the report phase |
| BindingInvariant.ReportConfigResponseKeeps | device.cpp:1589-1620 | An answer to the read request keeps it, whether the batch verifies or not |
| BindingInvariant.ConfigureEnterKeeps | device.cpp:1648-1707 | Sending a configure request keeps it |
| BindingInvariant.ConfigureResponseKeeps | device.cpp:1728-1757 | An answer to the configure request keeps it, in the last batch and in others |
| BindingInvariant.VerifyTickKeeps | device.cpp:1136-1259 | Each BindingTick of the verify state keeps the invariant for unicast and group destinations, with and without a matching table entry |
| BindingInvariant.MgmtBindResponseKeeps | device.cpp:1029-1130 | A binding table answer of any length keeps it |
| BindingInvariant.EnterKeeps | device.cpp:1029-1782 | The StateEnter of every binding state keeps the invariant and leaves something that drives the machine on |
| BindingInvariant.TimeoutKeeps | device.cpp:1029-1782 | A level 1 timeout returns to BindingHandler and keeps the invariant |
| BindingInvariant.EventKeeps | device.cpp:970-1782 | Every event in every binding state keeps the invariant and leaves something that drives the machine on |
| BindingInvariant.MergeExtends | device.cpp:2530-2543 | Merging report configurations only appends |
| BindingInvariant.PhaseInvGrows | device.cpp:2530-2543 | A running report phase is not disturbed by reports appended to its binding |
| BindingInvariant.AddBindingKeeps | device.cpp:2545-2568 | addBinding keeps the invariant in any state |
| ReportCheck.CheckConfiguration | device.cpp:1433-1486 | The nested loops with their early exits compute: the number of (answer, report) pairs counted equals the number of records requested |
| ReportCheck.CountingIsSound | device.cpp:1433-1486 | With distinct reports, distinct answers and the requested manufacturer code, that count is right exactly when each requested report was answered with success and its own configuration (a pigeonhole argument) |
| ReportCheck.RowCountIsIndicator | device.cpp:1450-1480 | One answer is counted at most once, and exactly when it confirms a requested report |
| ReportCheck.CountingIsRightIff | device.cpp:1433-1486 | For a response of the requested manufacturer code the count decides correctly whether every requested report has a success answer equal to it, if and only if no answer repeats another, or some requested reports have no answer and the repeated answers are not exactly as many as those |
| ReportCheck.ValidIffRepeatsFillGaps | device.cpp:1433-1486 | The test passes if and only if there are as many repeated answers as requested reports without an answer |
| ReportCheck.HitsAndConfirmed | device.cpp:1433-1486 | The answers that agree with a requested report are as many as the reports confirmed plus the answers that repeat an earlier one |
| ReportCheck.PairCountIsHits | device.cpp:1433-1486 | The loops count the answers that agree with a requested report |
| ReportCheck.ConfirmedStep | device.cpp:1450-1480 | Each further answer confirms one more record, unless it agrees with none or repeats an earlier answer |
| ReportCheck.PairCountIsConfirmed | device.cpp:1433-1486 | The pairs counted are the requested records confirmed |
| ReportCheck.RepeatedAnswerIsAccepted | device.cpp:1433-1486 | A device that repeats one record and leaves another out passes the test |
| ReportCheck.RepeatedAnswerIsRejected | device.cpp:1433-1486 | A device that answers everything but repeats one record fails it |
| ReportCheck.OneRecordLaw | device.cpp:1450-1480 | One record shows one report configured if and only if it is a success record with the report's attribute, intervals and change, in a response of its manufacturer code |
| ReportCheck.UnaskedLaw | device.cpp:1450-1462 | A report that was not asked for, in attribute or direction, does not count |
| BindingLaws.ConfirmLaw | device.cpp:1574-1588 | In each of the five states that wait for an answer, a successful confirm of the request in flight arms the timer and changes nothing else, a failed one leads back to BindingHandler, and a confirm of another request is ignored |
| BindingLaws.TimeoutLaw | device.cpp:1620-1624 | A timeout of any of these states and of BindingIdle leads back to BindingHandler and changes nothing else |
| BindingLaws.OtherEventsLaw | device.cpp:1029-1782 | Such a state ignores every event but confirms and its own answer |
| BindingLaws.StartLaw | device.cpp:970-1027 | A poll, awake or tick starts a round if and only if there are bindings and at most four unconfirmed requests; the table is read unless the device is known not to support that |
| BindingLaws.TableRequestLaw | device.cpp:1029-1070 | The first page is asked for at index 0; a request that is not taken ends the attempt |
| BindingLaws.PageLaw | device.cpp:1071-1113 | A page short of the end of the table makes the machine ask for what comes behind it, one that reaches the end leads on to the first binding |
| BindingLaws.RefusedPageLaw | device.cpp:1071-1126 | Replies to other requests are ignored, one with an error status ends the attempt, and two statuses say that there is no table |
| BindingLaws.PagesJoinUp | device.cpp:1029-1134 | For any sequence of page sizes, the pages asked for join up without gap or overlap, and the machine goes on exactly with the page that reaches the end of the table |
| BindingLaws.VerifyLaw | device.cpp:1136-1259 | The exact decision for a binding with a known destination, in milliseconds: a bind request if and only if the core does not list it, it was never confirmed, or the later of the two known times is 1801 s or more ago or a full second ahead; otherwise its reports, or the next binding for a group binding |
| BindingLaws.UnresolvedLaw | device.cpp:1155-1207 | A unicast binding without coordinator address ends the round, a group binding without a usable group is left for the next one |
| BindingLaws.RoundIsOverLaw | device.cpp:1149-1153 | Behind the last binding the check round goes up and stale entries are removed |
| BindingLaws.BindRequestLaw | device.cpp:1269-1300 | The bind request forgets the old date; it is awaited if it was taken and ends the attempt otherwise |
| BindingLaws.BindResponseLaw | device.cpp:1301-1332 | An accepted binding is dated and verified again, a refused one ends the attempt, answers to other requests are ignored |
| BindingLaws.StaleLaw | device.cpp:1338-1385 | An entry is to be removed if and only if its node is unknown, or the DDF wants groups for its cluster and endpoint and its own is not among them |
| BindingLaws.RemoveLaw | device.cpp:1334-1397 | The first stale entry is unbound, and the machine rests exactly when there is none |
| BindingLaws.UnbindResponseLaw | device.cpp:1418-1424 | The answer to the unbind request makes the machine start over at once |
| BindingLaws.BatchStopsLaw | device.cpp:1514-1551 | A read request ends before the list of reports does only when it is full, or in front of a due report of another manufacturer code |
| BindingLaws.ReportResponseLaw | device.cpp:1589-1618 | A valid answer leads to the reports left or to the next binding, any other to the configure state |
| BindingLaws.ConfigureResponseLaw | device.cpp:1648-1763 | After a success come the reports that did not fit, then those not read yet, then the next binding; a refusal ends the attempt |
| BindingLaws.MergeLaw | device.cpp:2530-2543 | Merging keeps the old reports in front; afterwards the attributes of both lists are there and no others |
| BindingLaws.MergeAddsLaw | device.cpp:2530-2543 | What is appended are new reports, each with an attribute that no report before it has |
| BindingLaws.AddLaw | device.cpp:2545-2568 | The first binding with the same cluster, endpoint and destination gets the reports; otherwise the binding is appended with a tracker that was never confirmed |
| AnsweredRuns.PhaseEnds | device.cpp:1488-1763 | From any reachable report phase of round 0, a device that confirms and answers every request, whatever it answers, has a run to the end of the phase of its binding; in later rounds a device that is configured as asked has |
| AnsweredRuns.SomeDeviceIsConfigured | device.cpp:1433-1486 | There are answers that pass the test for every request that can be in flight |
| AnsweredRuns.BindExchange | device.cpp:1269-1332 | From any reachable state about to bind, a device that confirms and accepts is dated and verified again |
| AnsweredRuns.RoundEnds | device.cpp:970-1763 | Such a device has a run through its whole binding table and all its bindings: unicast bindings are dated and their phases end, in order, and the check round goes up |
| AnsweredRuns.JoinedDeviceIsChecked | device.cpp:970-1763 | From construction on, with any bindings, any table pages and any answers about its reports, such a device has a run that ends round 0 with every report of every unicast binding verified or configured |
| PollLaws.BusyLaw | device.cpp:2060-2126 | A matching answer takes exactly the top item off the stack; a timeout or a failed confirm raises its retry by one, or takes it off at the third failure; a successful confirm starts the wait; other messages change nothing |
| PollLaws.NextLaw | device.cpp:1983-2039 | An unreachable device or an empty stack ends the session, an item without a read function is dropped, a read that is taken is awaited, one that is not counts as a failure |
| PollLaws.IdleLaw | device.cpp:1914-1978 | When a session starts and with which items, when the endpoints are refreshed instead, and when DeviceTick is told at once |
| PollLaws.AnsweredSessionEnds | device.cpp:1983-2126 | A session in which every read is taken, confirmed and answered reads every item exactly once and then is done |
| PollLaws.StepOfItems | device.cpp:1914-2126 | Over all runs the items change with the messages that reach the poll machine and with nothing else |
| PollLaws.GoneIsNotTriedAgain | device.cpp:1914-2126 | Over all runs an item that has left the stack, answered or not, is not tried again in its session |
| PollLaws.ItemsLeaveForAReason | device.cpp:1914-2126 | Over all runs an item leaves a running session only answered, failed for the third time, without a read function, or because the device is unreachable |
| DeviceLaws.ConfirmLaw | device.cpp:346-579 | In each of the four query states a successful confirm of the query in flight arms the timer, a failed one and a timeout lead back to Init, and a confirm of another request is ignored |
| DeviceLaws.AnswerLaw | device.cpp:346-794 | The processed answer of a query starts the interview over and wakes it up; forced reads are over or go on with the next endpoint |
| DeviceLaws.OtherEventsLaw | device.cpp:346-794 | A query state ignores every other event |
| DeviceLaws.InitLaw | device.cpp:227-300 | When Init goes on and where to |
| DeviceLaws.NodeDescriptorLaw | device.cpp:346-385 | Known: on to the endpoints; otherwise the query is sent, or the device starts over |
| DeviceLaws.ActiveEndpointsLaw | device.cpp:416-450 | The same for the endpoints, unless a forced read is due |
| DeviceLaws.EndpointLaw | device.cpp:479-520 | The endpoint queried is the first without a usable descriptor, or the next one in turn in a forced read; 0 means none |
| DeviceLaws.SimpleDescriptorLaw | device.cpp:479-545 | Without such an endpoint on to the Basic cluster; otherwise the query is sent, or the device starts over |
| DeviceLaws.BasicClusterLaw | device.cpp:709-760 | Both names known: on to the description; otherwise an attribute is read, or the device starts over |
| DeviceLaws.DescriptionLaw | device.cpp:834-875 | The description is asked for once; responses 1 and 3 lead to Idle, all others to Dead |
| DeviceLaws.DeadLaw | device.cpp:2130-2190 | A dead device comes back if and only if it is managed and has a DDF |
| DeviceLaws.IdleEnterLaw | device.cpp:903-963 | Entering Idle starts both sub-machines |
| DeviceLaws.IdleEventLaw | device.cpp:903-963 | An event reaches the bindings first and the polling then, with whatever they queue |
| DeviceLaws.TimerLaw | device.cpp:2446-2465 | A timer fires once, only if armed, and regardless of the lock |
| DeviceLaws.ReloadLaw | device.cpp:2380-2395 | Both reload events leave any state, switch the sub-machines off and arm the timer; a DDF reload starts with check round 0 |
| InterviewRuns.InterviewEnds | device.cpp:227-875 | Whatever is known at the start, a device with any endpoints that confirms and answers every query has a run to the look-up of its description |
| InterviewRuns.InterviewedDeviceIsSupervised | device.cpp:227-963 | And one from construction to Idle, managed, with both sub-machines at rest |
| PollMachine.SessionProgress | device.cpp:1983-2126 | Whenever the poll machine acts, the session ends, an attempt starts, or the sum of `3 - retry` over the items goes down; PollNext always acts on its StateEnter and timer |
| PollMachine.RetryLowersBudget | device.cpp:2042-2058 | Both a failed attempt and a finished item lower that sum |
| PollMachine.EnterKeeps | device.cpp:1914-2126 | The StateEnter of every poll state keeps the poll invariant |
| PollMachine.TimeoutKeeps | device.cpp:1983-2126 | A level 2 timeout keeps it |
| PollMachine.EventKeeps | device.cpp:1914-2126 | Every event keeps it |
| BindingMachine.FindBinding | device.cpp:2518-2560 | The index of the first binding that is the same, or the length |
| BindingMachine.GetOrCreate | device.cpp:1784-1808 | The tracker exists afterwards and no other tracker changes |
| Devices.Device.constructor | device.cpp:2213-2244 | A new device is the start state of the runs |
| Devices.Device.EnqueueEvent | device.cpp:197-202 | An event goes to the end of the queue unless it already waits there |
| Devices.Device.SetBind | device.cpp:2406-2426 | setState of level 1 leaves the old handler, sets the lock and queues the StateEnter; setting the same state does nothing |
| Devices.Device.BindingStartHandler | device.cpp:970-1012 | Starts a check of the bindings when the device is awake, managed and due |
| Devices.Device.BindingTableReadHandler | device.cpp:1029-1130 | Pages through the binding table and detects devices without support for it |
| Devices.Device.MgmtBindResponse | device.cpp:1071-1128 | The reply decides between next page, verification and giving up |
| Devices.Device.BindingTableVerifyHandler | device.cpp:1136-1259 | Decides per binding whether to create, remove, check reports or go on |
| Devices.Device.VerifyEntry | device.cpp:1190-1255 | The same for one resolved destination against the core's table |
| Devices.Device.ProcessNextBinding | device.cpp:1261-1267 | Advances to the next binding and back to the verify state |
| Devices.Device.BindingCreateHandler | device.cpp:1269-1332 | Bind request, its confirm, its response |
| Devices.Device.BindingRemoveHandler | device.cpp:1334-1431 | The whole handler equals its specification: search, unbind request, its confirm, its response |
| Devices.Device.FindOrphan | device.cpp:1340-1384 | The search finds the first entry to remove: a group the DDF does not want where it wants other groups, or a node that is gone |
| Devices.Device.IsUnwantedGroup | device.cpp:1346-1369 | The nested loop over the DDF's bindings decides that for one group entry |
| BindingInvariant.UnbindsOrphansOnly | device.cpp:1334-1400 | An unbind request goes out for such an entry only, and the machine rests exactly when there is none |
| Devices.Device.FillReadRequest | device.cpp:1514-1551 | The in-place loop over `reportIter` computes the batch of the specification, tracker updates included |
| Devices.Device.GetOrCreateReportTracker | device.cpp:1784-1808 | The tracker exists afterwards and no other tracker changes |
| Devices.Device.ReadReportEnter | device.cpp:1488-1570 | Sends the read request or goes to the next binding |
| Devices.Device.ReportConfigResponse | device.cpp:1589-1620 | Sorts the outcome of the read request into next batch, configure, next binding |
| Devices.Device.ReadReportConfigurationHandler | device.cpp:1488-1625 | The whole handler equals its specification for every message |
| Devices.Device.FillConfigureRequest | device.cpp:1665-1691 | The in-place loop over `configIter` computes the batch of the specification |
| Devices.Device.ConfigureEnter | device.cpp:1648-1707 | Sends the configure request |
| Devices.Device.ConfigureResponse | device.cpp:1728-1757 | Sorts the outcome into next configure batch, next read batch, next binding |
| Devices.Device.ConfigureReportingHandler | device.cpp:1648-1763 | The whole handler equals its specification |
| Devices.Device.SetPoll | device.cpp:2406-2426 | setState of level 2 |
| Devices.Device.PollIdleHandler | device.cpp:1914-1979 | Starts a session on a poll or awake event unless too much is unconfirmed or maintenance is due |
| Devices.Device.PollNextHandler | device.cpp:1983-2040 | Takes the top of the stack, tries it, or finishes the session |
| Devices.Device.CheckPollItemRetry | device.cpp:2042-2058 | One more failed attempt for the top item; the third drops it |
| Devices.Device.PollBusyHandler | device.cpp:2060-2126 | Confirm, response and timeout of a read; the confirm stops the level 0 timer, as written |
| Devices.Device.SetTop | device.cpp:2406-2426 | setState of level 0, with the Leave handler of Idle run at once |
| Devices.Device.LeaveIdle | device.cpp:903-963 | Leaving Idle stops both sub-machines |
| Devices.Device.InitStateHandler | device.cpp:227-293 | The Init handler equals its specification |
| Devices.Device.NodeDescriptorStateHandler | device.cpp:346-412 | The NodeDescriptor handler equals its specification |
| Devices.Device.ActiveEndpointsStateHandler | device.cpp:416-474 | The ActiveEndpoints handler equals its specification |
| Devices.Device.FindEndpointToFetch | device.cpp:479-511 | The first endpoint without a usable simple descriptor, or 0 |
| Devices.Device.SimpleDescriptorStateHandler | device.cpp:479-577 | The SimpleDescriptor handler equals its specification |
| Devices.Device.BasicClusterStateHandler | device.cpp:709-794 | The BasicCluster handler equals its specification |
| Devices.Device.GetDeviceDescriptionHandler | device.cpp:834-870 | The GetDeviceDescription handler equals its specification |
| Devices.Device.IdleStateHandler | device.cpp:903-963 | Idle starts both sub-machines and passes events on to them |
| Devices.Device.HandleEvent | device.cpp:2354-2404 | A normal event reaches the handler of level 0, or reloads the device |
| Devices.Device.HandleEnter | device.cpp:2354-2404 | A StateEnter unlocks its level and reaches that level's handler |
| Devices.Device.TimerEvent | device.cpp:2446-2460 | A timeout reaches its level whether locked or not |
| Devices.Device.ClearBindings | device.cpp:2508-2516 | Empties bindings and trackers and returns a running binding machine to BindingHandler |
| Devices.Device.MergeReports | device.cpp:2530-2543 | Appends the reports the first list does not have |
| Devices.Device.AddBinding | device.cpp:2545-2568 | Merges into the same binding or appends a new one with its tracker |
| EventEmitters.UrgentFirst | event_emitter.cpp:106-140 | The urgent events that wait are the next ones delivered, in their order, whatever the handlers enqueue meanwhile |
| EventEmitters.DeliveriesKeep | event_emitter.cpp:53-140 | Over any number of deliveries and answers, both queues deliver exactly what they accepted, in order, and no two waiting normal events say the same |
| EventEmitters.EnqueueKeeps | event_emitter.cpp:53-100 | Every enqueued event waits afterwards, itself or one that says the same |
| EventEmitters.EnqueueLaw | event_emitter.cpp:53-105 | A normal event waits unless one with the same content does; an event of a sensor or light without a device key gets that of its node; urgent events always wait |
| EventEmitters.EventEmitter.EnqueueEvent | event_emitter.cpp:53-100 | The in-place queues follow the two-queue machine; the timer runs afterwards |
| EventEmitters.IsDuplicate | event_emitter.cpp:19-37 | True exactly when an undelivered event says the same |
| EventEmitters.EventEmitter.DrainUrgent | event_emitter.cpp:112-127 | The inner loop empties the urgent queue even while handlers add to it |
| EventEmitters.EventEmitter.DeliverNormal | event_emitter.cpp:129-139 | At most one normal event, and the queue is cleared when it was the last |
| EventEmitters.EventEmitter.Process | event_emitter.cpp:106-141 | The two loops make some number of urgent-first deliveries; one round is enough to deliver every urgent event that waited |
| EventEmitters.EventEmitter.TimerFired | event_emitter.cpp:145-153 | Events are left without a running timer if and only if the clock allowed no round and only urgent events wait |
| AlarmWorld.AlarmInvariant | alarm_system.cpp:75-311 | Over all runs of all systems: state Disarmed has a disarmed target, the four armed states an armed one, mask and panel status follow state and target, and the timer runs exactly in the four timed states |
| AlarmWorld.AlarmProvenance | alarm_system.cpp:136-194 | Over all runs, a system in alarm received, since its last mode change, the alarm of a device that was in the table for that very system with the flag of the current mode, and more than the entry delay in force passed before the alarm |
| AlarmWorld.SourcesAreEntries | alarm_system_event_handler.cpp:182-218 | A device event becomes an alarm event only for a valid entry of the table at that moment |
| AlarmWorld.PackDecodes | alarm_system_event_handler.cpp:205-218 | The packed event number gives back exactly the alarm system id and the mode flags |
| AlarmWorld.TriggeredBy | alarm_system.cpp:157-174 | The test that an armed system makes of the number is passed exactly by the alarms of devices that belong to it and have the flag of its mode |
| AlarmWorld.Reachable | alarm_system_event_handler.cpp:129-147 | The joint invariant of systems, queue and device table holds after any sequence of steps |
| AlarmWorld.HandleAlarmSystemEvent | alarm_system_event_handler.cpp:129-147 | Every system handles every event, each on its own |
| AlarmWorld.HandleAlarmSystemDeviceEvent | alarm_system_event_handler.cpp:182-218 | The filter, the look-up and the packed event |
| AlarmLaws.ArmedLaw | alarm_system.cpp:157-174 | An armed system reacts to the alarm of a device if and only if the device belongs to it and has the flag of its mode: entry delay, timer, panel and seconds are set; otherwise nothing changes |
| AlarmLaws.EntryDelayLaw | alarm_system.cpp:136-155 | A tick later than the entry delay raises the alarm, an earlier one shows the whole seconds left |
| AlarmLaws.InAlarmLaw | alarm_system.cpp:176-193 | A tick later than the trigger duration leads back to Armed, an earlier one changes nothing |
| AlarmLaws.ExitDelayLaw | alarm_system.cpp:106-134 | A tick later than the exit delay leads to Disarmed or Arming, an earlier one shows the whole seconds left |
| AlarmLaws.ArmingLaw | alarm_system.cpp:195-204 | The next tick arms the system |
| AlarmLaws.OtherEventsLaw | alarm_system.cpp:99-204 | Every other event is ignored |
| AlarmLaws.ModeLaw | alarm_system.cpp:257-300 | A new mode brings its own delays and flag and starts its exit delay; the same mode again renews the delays only |
| AlarmLaws.StartLaw | alarm_system.cpp:590-607 | The configured mode is in force at once, with its delays, flag and panel |
| AlarmLaws.DeviceEventLaw | alarm_system_event_handler.cpp:149-218 | An event is queued if and only if it is one of the alarming kinds, has an item, and comes from a device with a valid entry |
| AlarmLaws.DeliverLaw | alarm_system_event_handler.cpp:129-147 | Every system gets the event at the head of the queue |
| AlarmLaws.ConfigureLaw | alarm_system.cpp:402-447 | A changed configuration is announced to the systems |
| AlarmLaws.AlarmIsRaised | alarm_system.cpp:136-193 | From every reachable state with an empty queue, an alarming event of a device that concerns an armed system starts its entry delay, a tick after the delay raises the alarm, and one after the trigger duration ends it |
| AlarmLaws.ModeIsReached | alarm_system.cpp:106-204 | From every reachable state with an empty queue, a new mode is in force after its exit delay |
| AddressLaws.AddressLaw | utils/utils.cpp:325-364 | The address of a unique id is the number spelt by its first 16 hex digits, colons left out, and 0 for any other string |
| AddressLaws.SameAddressIff | utils/utils.cpp:325-364 | Two unique ids have one address if and only if they have the same 16 digits |
| AddressLaws.DigitLaw | utils/utils.cpp:325-364 | The value of a hex digit in either case |
| AlarmDeviceTable.PutLaw | alarm_system_device_table.cpp:97-142 | What a look-up says after put, field by field |
| AlarmDeviceTable.ArmMaskLaw | alarm_system_device_table.cpp:69-77 | The letters of the mask are those of the modes the device takes part in |
| AlarmSystemMachine.StartEstablishes | alarm_system.cpp:590-607 | Whatever the configuration, a started system satisfies the invariant |
| AlarmSystemMachine.HandleKeeps | alarm_system.cpp:367-400 | Every event at every time keeps it |
| AlarmSystemMachine.ChangeModeKeeps | alarm_system.cpp:367-400 | A new arm mode keeps it in every state, an alarm included |
| AlarmSystemMachine.ExitTickKeeps | alarm_system.cpp:106-134 | The exit delay's tick keeps it, on time-out and before |
| AlarmSystemMachine.EntryTickKeeps | alarm_system.cpp:136-155 | The entry delay's tick keeps it and records how long the delay lasted |
| AlarmSystemMachine.DeviceAlarmKeeps | alarm_system.cpp:157-174 | A device alarm in the armed state keeps it |
| AlarmSystemMachine.SecondsLeft | alarm_system.cpp:106-155 | The seconds shown are the whole seconds left of the delay in force, and 0 exactly when the tick ends the delay |
| AlarmSystemMachine.TriggerItemIgnored | alarm_system.cpp:257-300 | Stay and night mode ignore their trigger duration item, since the code reads the exit delay instead |
| AlarmSystems.AlarmSystem.constructor | alarm_system.cpp:313-356 | A new system is disarmed with the panel not ready |
| AlarmSystems.AlarmSystem.SetState | alarm_system.cpp:75-83 | State and panel status change together |
| AlarmSystems.AlarmSystem.UpdateArmStateAndPanelStatus | alarm_system.cpp:206-255 | The branches compute the panel status of the specification |
| AlarmSystems.AlarmSystem.UpdateTargetStateValues | alarm_system.cpp:257-300 | Delays and mask of the target mode |
| AlarmSystems.AlarmSystem.SetSecondsRemaining | alarm_system.cpp:302-311 | A value outside a byte is refused |
| AlarmSystems.AlarmSystem.StateExitDelay | alarm_system.cpp:106-134 | The handler equals its specification |
| AlarmSystems.AlarmSystem.StateEntryDelay | alarm_system.cpp:136-155 | The handler equals its specification |
| AlarmSystems.AlarmSystem.StateArmed | alarm_system.cpp:157-174 | The handler equals its specification |
| AlarmSystems.AlarmSystem.StateInAlarm | alarm_system.cpp:176-193 | The handler equals its specification |
| AlarmSystems.AlarmSystem.HandleEvent | alarm_system.cpp:367-400 | Dispatch to the current state, or a change of the arm mode |
| AlarmSystems.AlarmSystem.StartSystem | alarm_system.cpp:590-607 | Start in the configured mode |
| AlarmDeviceTable.TableRefinesMap | alarm_system_device_table.cpp:18-157 | After any sequence of put and erase the vector has distinct addresses, answers every look-up like a map from address to entry, and the database rows are exactly its entries |
| AlarmDeviceTable.PutRefinesMap | alarm_system_device_table.cpp:97-142 | put is map update; an existing device keeps its unique id; a unique id that is too long or is none changes nothing |
| AlarmDeviceTable.EraseRefinesMap | alarm_system_device_table.cpp:144-157 | erase with swap-remove is map removal, the last element included |
| AlarmDeviceTable.PutMirrors | alarm_system_device_table.cpp:79-142 | put keeps database rows and entries equal |
| AlarmDeviceTable.EraseMirrors | alarm_system_device_table.cpp:144-157 | erase keeps database rows and entries equal |
| AlarmDeviceTable.GetAfterUpdate | alarm_system_device_table.cpp:97-142 | Changing an entry in place changes the look-up of its own address only |
| AlarmDeviceTable.GetAfterAppend | alarm_system_device_table.cpp:97-142 | Appending an entry changes the look-up of its own address only |
| AlarmDeviceTable.GetAfterSwapRemove | alarm_system_device_table.cpp:144-157 | Swap-remove changes the look-up of the removed address only |
| AlarmDeviceTable.ReloadExact | alarm_system_device_table.cpp:159-196 | Loading the rows in any order gives back the same map if and only if every device has an alarm system id other than 0 |
| AlarmDeviceTable.LoadedAreUsable | alarm_system_device_table.cpp:164-196 | Exactly the entries that belong to an alarm system are loaded, with distinct addresses |
| AlarmDeviceTable.DeviceTable.GetIterator | alarm_system_device_table.cpp:18-26 | The linear search finds the first entry with the address, or the end |
| AlarmDeviceTable.DeviceTable.GetEntry | alarm_system_device_table.cpp:34-57 | The entry of an address, or the empty entry |
| AlarmDeviceTable.DeviceTable.PutEntry | alarm_system_device_table.cpp:97-142 | put on the vector in place and on the rows |
| AlarmDeviceTable.DeviceTable.EraseEntry | alarm_system_device_table.cpp:144-157 | erase on the vector in place and on the rows |
| AlarmDeviceTable.DeviceTable.LoadDevices | alarm_system_device_table.cpp:159-196 | The table is replaced by what was loaded, unless nothing was |
| ChannelChange.RequestsAreBounded | change_channel.cpp:44-393 | From an accepted start, any run without a further start sends at most 2 network updates, 20 disconnect and 20 reconnect requests |
| ChannelLaws.StartLaw | change_channel.cpp:44-66 | A start inside a network begins or renews a change |
| ChannelLaws.VerifyLaw | change_channel.cpp:72-121 | The change is over if and only if the network is up on the requested channel with the right parameters; otherwise it goes on with ChangeChannel |
| ChannelLaws.ChangeLaw | change_channel.cpp:127-212 | Exactly one update is sent while there are a controller, a retry and one of the channels 11 to 26 |
| ChannelLaws.ConfirmLaw | change_channel.cpp:217-262 | A confirmed update makes the network leave, a failed one is looked at again, none at all gives up |
| ChannelLaws.DisconnectLaw | change_channel.cpp:267-307 | The network is asked to leave until it has or ten attempts are used up |
| ChannelLaws.ReconnectLaw | change_channel.cpp:334-393 | A network that is back is looked at; otherwise it is asked to come back, up to ten times, if it was up before |
| ChannelLaws.EndsIff | change_channel.cpp:499-542 | A step ends a change if and only if it is one of five endings |
| ChannelLaws.ChangeEndsIff | change_channel.cpp:499-542 | Over all runs from an accepted start the same, and the good ending is on the channel that was requested |
| ChannelLaws.ChannelIsChanged | change_channel.cpp:44-393 | A network that takes the update, leaves and comes back on the requested channel, each after any number of reminders below the limit, ends in Idle there after one update |
| ChannelChange.StepLowersRank | change_channel.cpp:127-393 | With a live controller, every acting step other than waiting for a connecting network lowers a rank built from retries, phase and attempts |
| ChannelChange.ReachesIdle | change_channel.cpp:499-542 | With a live controller, the timer is armed exactly outside Idle, and after at most 80 acting steps that do not wait for a connecting network the machine is back in Idle |
| ChannelChange.StaysArmedIff | change_channel.cpp:217-393 | The exact condition for losing the timer: a successful confirm or a reconnect attempt while there is no controller |
| ChannelChange.StepWithinBudget | change_channel.cpp:127-393 | Every step keeps the requests sent within what retries and attempts used up allow |
| ChannelChange.ChannelChanger.StartChannelChange | change_channel.cpp:44-66 | Starts, or renews the retries of a change that is under way; refuses outside a network |
| ChannelChange.ChannelChanger.DoChangeChannel | change_channel.cpp:127-212 | Sends the update, retries, or gives up |
| ChannelChange.ChannelChanger.ChannelChangeSendConfirm | change_channel.cpp:217-233 | Confirm of the update request |
| ChannelChange.ChannelChanger.DisconnectNetwork | change_channel.cpp:239-262 | The first disconnect request |
| ChannelChange.ChannelChanger.CheckNetworkDisconnected | change_channel.cpp:267-307 | Repeats the disconnect or starts to reconnect |
| ChannelChange.ChannelChanger.ReconnectNetwork | change_channel.cpp:334-393 | Waits, asks again, or gives up |
| ChannelChange.ChannelChanger.ChannelChangeTimerFired | change_channel.cpp:499-542 | The timer slot dispatches by state |
| BindingTable.Reconciled | bindings.cpp:308-419 | After any pages that cover a node's table, each of its tasks in StateCheck ends as membership in the table dictates, if and only if it is the first task queued for its binding or its binding is not in the table |
| BindingTable.PageBoundariesDoNotMatter | bindings.cpp:308-419 | The outcome depends on the entries only, not on how they are cut into pages |
| BindingTable.PageDecodes | bindings.cpp:308-419 | A page sent by a node has exactly the effect of its entries, and of the final decision when it is the last one |
| BindingTable.EntriesDecode | bindings.cpp:344-392 | A concatenated list of encoded entries decodes to the same list |
| BindingTable.FoundEntriesAt | bindings.cpp:357-392 | What a list of entries does to one task, repetitions included |
| BindingTable.FoundEntriesAppend | bindings.cpp:344-392 | Two lists of entries one after the other act like their concatenation |
| BindingTable.SecondTaskIsDecidedWrongly | bindings.cpp:308-419 | The wrongly decided pair: a bind and an unbind task for one binding in the table, of which the unbind task ends as finished |
| BindingTable.OthersUntouched | bindings.cpp:394-419 | Tasks of other nodes that the table does not mention stay as they are |
| BindingTable.UncheckedTask | bindings.cpp:357-419 | A task that was not being checked changes in one way only: a bind task whose binding is found is finished |
| BindingTable.RefusedPage | bindings.cpp:308-330 | A page with an error status changes no task |
| BindingTable.BindingManager.HandleEntry | bindings.cpp:357-390 | The search loop changes the first task for the binding only |
| BindingTable.BindingManager.HandleEntries | bindings.cpp:344-392 | The entry loop stops at the count, the end of data or an invalid entry |
| BindingTable.BindingManager.CheckRemaining | bindings.cpp:394-419 | The final loop decides every task of the node still in StateCheck |
| BindingTable.BindingManager.HandleMgmtBindRsp | bindings.cpp:308-419 | The whole page handler equals its specification for any bytes |
| Bindings.RoundTrip | bindings.cpp:53-111 | Every binding that can be written is read back as its normal form from between any other bytes, consuming exactly its own; it is read back unchanged if and only if it is in normal form |
| Bindings.ReadBinding | bindings.cpp:53-84 | The cursor never moves back or past the end |
| Bindings.DataStream.GetBinding | bindings.cpp:53-84 | The imperative reader with its early exits equals the specification |
| Bindings.PutBinding | bindings.cpp:86-111 | The imperative writer equals the specification and refuses unknown address modes |
| Bindings.WritableIff | bindings.cpp:86-111 | Exactly which bindings can be written |
| Bindings.EntryLayout | bindings.cpp:86-111 | The layout of a written entry, byte by byte |
| BindingReaders.TickConserves | bindings.cpp:3882-3954 | A tick of the table readers invents no reader and loses none that does not retire, counted per reader value |
| BindingReaders.TickSends | bindings.cpp:3882-3954 | A tick sends at most one request, of an idle reader whose request is accepted; otherwise no reader left retires or waits |
| BindingReaders.TimerFired | bindings.cpp:3882-3954 | The loop with swap-remove equals the specification; the timer runs on exactly while readers are left |
| BindingReaders.AloneLaw | bindings.cpp:3882-3954 | What a tick does to a reader in each state, and which time-out belongs to which reader |
| DdfBundle.FindsFirst | device_ddf_bundle.cpp:4-34 | In every serialised chunk list the search stops behind the header of the first chunk with the tag, in front of its exact payload, or restores the position |
| DdfBundle.FirstWithIsFirst | device_ddf_bundle.cpp:25-29 | The chunk found has the tag and no chunk before it does |
| DdfBundle.ExternalFilesRoundTrip | device_descriptions.cpp:2795-2810 | Every list of external files mixed with other chunks is recovered in order, field by field, padding ignored |
| DdfBundle.CollectWalks | device_descriptions.cpp:2795-2810 | What the loop makes of an arbitrary chunk list, malformed files included |
| DdfBundle.CollectOntoReverses | device_descriptions.cpp:2803-2804 | The program's list is the files in reverse reading order |
| DdfBundle.ExtfRoundTrip | device_ddf_bundle.cpp:162-206 | The fields of an EXTF chunk are read back exactly, empty path and time included |
| DdfBundle.AllFilesRecoveredIff | device_ddf_bundle.cpp:132-206 | Every file is recovered, and nothing else, if and only if each EXTF chunk that can be parsed is directly preceded by an even number of malformed EXTF chunks |
| DdfBundle.WalkFromIff | device_descriptions.cpp:2795-2810 | The same for the rest of a list, with and without a chunk that is taken along |
| DdfBundle.MalformedFileHidesTheNext | device_ddf_bundle.cpp:132-206 | A file that cannot be parsed takes the good file behind it along |
| DdfBundle.ValidBundleIff | device_ddf_bundle.cpp:75-108 | A bundle is accepted if and only if a DDFB chunk follows the first RIFF header and its content has a DESC chunk; the hash covers exactly that DDFB chunk |
| DdfBundle.ValidContentIff | device_ddf_bundle.cpp:84-108 | The same behind the RIFF header, with the place of the content |
| DdfBundle.HeaderOf | device_ddf_bundle.cpp:13-17 | Tag and size of a serialised chunk are read back |
| DdfBundle.TurnOf | device_descriptions.cpp:2795-2810 | One turn of the collecting loop leaves the stream just behind the chunk, with its file if it is an EXTF chunk that can be parsed |
| DdfBundle.SkipOf | device_ddf_bundle.cpp:49-70 | Skipping lands exactly behind the chunk |
| DdfBundle.BStream.Find | device_ddf_bundle.cpp:4-34 | The loop on the stream object equals the specification for any bytes |
| DdfBundle.BStream.Skip | device_ddf_bundle.cpp:49-70 | The skip on the stream object equals the specification |
| DdfBundle.BStream.ReadFile | device_ddf_bundle.cpp:132-206 | Reading a file leaves the stream behind its chunk and equals the specification |
| DdfBundle.BStream.ReadFiles | device_descriptions.cpp:2795-2810 | The collecting loop ends and equals the specification |
| DdfBundle.BStream.IsValid | device_ddf_bundle.cpp:75-108 | The check on the stream object equals the specification |
| DdfBundle.SanitizeBundleHashString | device_ddf_bundle.cpp:111-130 | Accepts exactly 64 hex digits and lower-cases them in place; a refused string is lower-cased up to its first bad character |
| DdfBundle.LowerKeepsValue | device_ddf_bundle.cpp:111-130 | The rewritten hash string spells the same number |
| ColorSpace.HsvOfRgbInverts | colorspace.cpp:401-493 | HSV and back is the identity on the whole colour cube, with results in the documented ranges |
| ColorSpace.RgbOfHsvInverts | colorspace.cpp:401-493 | The other way round it is the identity if and only if saturation and value are positive, or hue and saturation are zero |
| ColorSpace.HslOfRgbInverts | colorspace.cpp:513-605 | HSL and back is the identity on the whole colour cube, with results in the documented ranges |
| ColorSpace.RgbOfHslInverts | colorspace.cpp:513-605 | The other way round it is the identity if and only if saturation is positive and lightness strictly between 0 and 1, or hue and saturation are zero |
| ColorSpace.EverySideExists | colorspace.cpp:454-492 | For every real hue the switch takes one of its six cases, never the default, and whole turns do not matter |
| ColorSpace.SideOfHexagon | colorspace.cpp:401-493 | A colour is recovered from its place on the hexagon, its chroma and its smallest component |
| ColorSpace.HexagonOfSide | colorspace.cpp:401-493 | Place, chroma and smallest component are recovered from the colour, ties between components included |
| ColorLaws.CoordinatesMean | colorspace.cpp:401-560 | Value, lightness and saturation in terms of the greatest and smallest component |
| ColorLaws.PureHue | colorspace.cpp:401-560 | Red lies at 0, green at 120 and blue at 240 degrees |
| FreeIds.GetFreeLightId | database.cpp:4643-4697 | The search ends on every list of ids, at an unused id, with all smaller positive ids in use, and at most one past the number of ids collected |
| FreeIds.HoldsAtLeast | database.cpp:4682-4694 | A vector that contains 1 to n has n elements, which is why the search ends |
| FreeIds.CollectSensorIds | database.cpp:4820-4858 | The ids collected are exactly those at run time, in rule conditions of sensors, and in the database |
| FreeIds.GetFreeSensorId | database.cpp:4808-4880 | The least unknown id from the greatest known id below 1000 on (or 1); below 10000 it is unused and above every known id below 1000; ids from 1000 on do not push it up |

## Left out

- Texts of SQL statements, schema upgrades, load and save callbacks, files, processes and backup: input and output; the alarm device rows are a map.
- Vendor and model tables in `sendConfigureReportingRequest`, `checkLightBindings*`, `checkSensorBindings*` and `sqliteLoadAllSensorsCallback`: constants.
- `bindingTimerFired`: its retries go up and down and its active count covers a part of the list, so neither an end nor a bound is there to prove.
- Building and parsing of APS, ZDP and ZCL frames, Qt timers and signals, cryptography, web socket, REST and user interface: arbitrary inputs of a step.
- The values of timer intervals in the device supervisor: a running timer may fire at any moment.
- `DEV_CheckItemChanges`, `DEV_CheckReachable`, `DEV_PublishToCore`, the awake clock and the forwarding of node changes: they change resource items, which are inputs of the next step.
- `Device::addSubDevice`: its comparator is no strict weak order.
- The life time of `deCONZ::Node` pointers: a step either has a node or has none.
- The mirroring of keypad states and web socket messages in `AS_HandleAlarmSystemEvent`: they do not reach the alarm systems again.
- `AlarmSystem::isValidCode` and `setCode`: password hashes.
- The network watchdog in `change_channel.cpp`: it belongs to another protocol.
- Daylight, HSI, CIE conversions, gamma correction, `GetColorTransform` and `MiredColorTemperatureToXY`: transcendental functions or small tables.
- Rounding of floating point numbers in `colorspace.cpp`: the inverse laws hold over exact reals.
- Wrap-around of 32-bit positions in `device_ddf_bundle.cpp`: positions are 64 bits wide there.
- The SHA-256 value of a bundle: the model proves which bytes the hash covers.
- The processing of DDF contents behind the collecting loop in `device_descriptions.cpp`: JSON.
- Capacity and reuse of the shared event data buffer in `event.cpp`: see the assumptions.
- `aps_controller_wrapper.cpp`, `de_otau.cpp`, `button_maps.cpp`: flags, counters and look-ups that would only add easy members.
- Fairness: the results on progress say what drives the device supervisor and the channel change on, and that each acting step comes closer to the end; that timers do fire and queues are served is up to Qt.
- Devices.Device.BasicClusterStateHandler: whether the manufacturer name and the model id are known is an input; the sub-devices and clusters they are copied from are resource items.
- Devices.Device.IdleStateHandler: the count of APS confirm errors is left out; all it does is to clear the reachable item, which is an input of every step.
- EventEmitters.EventEmitter.DrainUrgent: the handlers enqueue new events in answer to finitely many deliveries only; with handlers that always answer with an urgent event the loop of the program would not end.
