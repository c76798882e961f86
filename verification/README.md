# Verification of the ATLAS client's event-driven core

The client is one thread: `select` reports readable descriptors, the main loop calls the handler registered with each,
and the handlers run callbacks that submit CoAP requests, set and cancel alarms, and so change the very lists that are
being walked. This project models that core, the command format that every module speaks, and the protocols built on
both, and proves what must hold over whole runs.

| layer | files |
|---|---|
| Lists in memory: nodes, a head pointer, appending and unlinking in place; facts about sequences | `LinkedLists.dfy`, `Sequences.dfy` |
| Scheduler, alarms, CoAP requests, main loop | `Scheduler.dfy`, `Alarms.dfy`, `CoapClient.dfy`, `RequestChain.dfy`, `Ownership.dfy`, `EventLoop.dfy`, `PoliteSteps.dfy`, `PoliteRuns.dfy`, `NumberReuse.dfy`, `Descriptors.dfy`, `Tokens.dfy` |
| Command batches and the parsers on them | `Bytes.dfy`, `Commands.dfy`, `CommandBatch.dfy`, `Alerts.dfy`, `ExecuteGate.dfy` |
| Registration and keep-alive, telemetry alarms, and both on the core's lists | `Registration.dfy`, `Telemetry.dfy`, `CallbackRules.dfy`, `RegistrationThread.dfy` |
| Data plane, its connection to the client, and the client's connector | `Reconnect.dfy`, `PacketStatistics.dfy`, `Connector.dfy`, `PolicyRuns.dfy` |

Each module that the client keeps as static variables is a class. Its methods follow the C functions branch by branch,
and each is proved to compute a function on values (`View()` before to `View()` after). The lemmas are about those
functions, so they hold of the methods.

## How to read the results

**Main loop.** A completed request gives up a scheduler entry, an alarm and two descriptors, on a response or on a
time-out, while callbacks append new requests and alarms. Deleting from the scheduler only sets a dirty bit on the
first entry with the number, dirty or not. `Ownership.Owned` and `EventLoop.AllOwned` say that the live entries are,
one for one, the armed alarms, the pending requests, the listeners and at most one data-plane socket, and that each
request owns one run-once alarm. `EventLoop.RunKeeps` proves it for every run from a steady state, such as the one in
which `main` enters the loop (`EventLoop.Started`), in which the history flag `clean` stays true, for all readiness
reports, messages, callbacks and descriptor numbers offered by the kernel. The same theorem carries exactly-once
completion: the number of callback calls logged for a request is 1 once it has left the list and 0 while it waits.

`clean` turns false, for good, when

- the deletion of an alarm, a request or a replaced connection is *shadowed*: a dirty entry with the same number stands
  before the live one, so that the wrong entry is marked. That this breaks the ownership, and nothing else in the
  operation does, is proved at each of these sites: `Alarms.AlarmCanceledExact`, `Ownership.FinishedExact`,
  `EventLoop.ConnectedExact`. The fourth deletion, of a data-plane socket whose read failed, keeps the ownership even
  when it is shadowed; the dead socket then stays watched (`EventLoop.SocketReadExact`), and `clean` stays as it is;
- an application callback cancels the alarm it runs for, or the alarm of a pending request;
- one `coap_io_process` hands over two messages that carry the token of the same request. RFC 7252, section 5.3.2,
  matches a response to its request by token and endpoint; the handler calls the callback once per match
  (`Ownership.RespondedExact`).

`PoliteRuns.PoliteKeeps` puts the condition on what the environment and the callbacks do instead, and `StartKeeps` on runs
from `main`'s start: if no number offered has its bit of the report still set, scripts keep the two cancel rules and cancel
only alarms that are older than the last sweep or listed once, and each drain brings at most one match, then the run is
clean and ends in a steady state. Numbers may come back in the pass that closed them, as when telemetry replaces an alarm:
`CallbackRules` shows that the client's own callbacks keep the cancel rules, and exactly when replacing an alarm is polite.
Doing it twice between two sweeps, the first time with the number just closed, always loses an entry
(`CallbackRules.SecondRateOrphans`).

What the kernel offers is not the callbacks' to decide: it gives the lowest free number, and
`NumberReuse.ReuseBreaksOwnership` is a run from `main`'s start with three rounds, in which the data plane connects and sends
a policy, REGISTER and the policy request time out together while something arrives for the first, and the policy's retry
timer gets the first one's descriptor. Every number is the lowest free one, no reply arrives and no callback breaks a rule,
and the run ends with a live entry nobody owns, watching a closed descriptor.

Descriptors are a different matter. `Descriptors.NothingLeaks` holds of every run, clean or not: the deletion that hits the
wrong entry leaves a closed number watched, but no descriptor stays open without an owner and none has two.

The kernel never returns a number that is open. A number stays usable as soon as it is closed, so reuse while its dirty
entry is still listed is part of the model.

**Command batches.** `Commands.Decode` and `Encode` are the format; `Batch` is the buffer, whose headers the cursor turns
into host order where they lie. `Image(host, cs, k)` is the buffer after `k` visits. The host's byte order is a
parameter, so `htons` and `ntohs` are real functions on bytes.

**Registration.** `World` holds the module's variables with the requests in flight and the alarms armed, each with its
deadline, and the clock. Events are served when they are due (time does not pass a deadline) and in any order otherwise.
`RunExact` is an equivalence: the client is in exactly one of three phases as long as no creation of a REGISTER request or
of an alarm fails, and from the first such failure on it is dead, with `registered` frozen. `RegistrationThread` says the same of
the main loop's runs, where registration's requests and alarms stand among everybody's: never a second thread of activity,
and exactly one as long as no creation fails. That a keep-alive is over before the next one is sent is proved with the clock
and is a rule there.

**Numbers on the wire and in memory.** Status classes, type numbers, times, the bytes of tokens and of messages are each
stated once as numbers, in lemmas that do not go through the functions that use them: `Ownership.MessageExact`,
`Registration.KeepAliveExact`, `RegisterExact` and `FiringExact`, `ExecuteGate.ScheduleExact`, `Connector.CommandExact`, the
lemmas named after bytes, and the exact lemmas of `Alerts`, `Telemetry` and `Tokens`.

**Where the code and its comments differ.** The comment on `ka_count` (src/register/atlas_register.c:27) says that
registration is triggered when the counter reaches 0. The counter is also 0 at the start and after every trigger, and
`reg_callback` does not set it, so until the first good keep-alive response the next trigger takes 256 plain failures
(`Registration.LostExact`). The branch for a 406 status in `keepalive_callback` is modelled, but the message handler
reports every 4.xx response as 404. `atlas_alert_threshold_cmd_parse` tests its out-pointer where it means the threshold,
so a batch without one is accepted (`Alerts.AcceptedWithoutThreshold`). A reported statistic of 65536 or more, and on a
big-endian host every one but 0, is stored wrongly (`Connector.StatisticFaithful`).

## Model

| member | source | states |
|---|---|---|
| LinkedLists.LinkedList.Append | src/scheduler/atlas_scheduler.c:37-44 | walking to the last node and linking a new one there makes the list's contents longer by that record; no node moves |
| LinkedLists.LinkedList.Unlink | src/alarm/atlas_alarm.c:108-111 | unlinking at the head or behind a predecessor leaves exactly the other nodes, in order; the node itself stays readable |
| LinkedLists.LinkedList.Update | src/scheduler/atlas_scheduler.c:53-54 | writing a node's record changes that position and no other |
| Scheduler.EntryList.Add | src/scheduler/atlas_scheduler.c:23-45 | a live entry is appended; a negative descriptor adds nothing |
| Scheduler.EntryList.Delete | src/scheduler/atlas_scheduler.c:47-57 | the first entry with the number becomes dirty and nothing else changes |
| Scheduler.EntryList.Sweep | src/scheduler/atlas_scheduler.c:69-91 | the in-place unlinking, runs of dirty nodes at the head included, leaves exactly the live entries in order, with their descriptor set and its maximum or 0 |
| Scheduler.WatchExact | src/scheduler/atlas_scheduler.c:69-91 | the set given to `select` is exactly the listed descriptors; the bound is one of them, or 0, and none exceeds it |
| Scheduler.DeleteExact | src/scheduler/atlas_scheduler.c:47-57 | a deletion takes the number out of the live ones if and only if it is not shadowed; a shadowed one changes nothing |
| Scheduler.DeletePerHandler | src/scheduler/atlas_scheduler.c:47-57 | an unshadowed deletion takes the number from its own handler's live entries and from no other's |
| Scheduler.SweepKeepsLive | src/scheduler/atlas_scheduler.c:71-91 | a sweep loses no live descriptor and leaves none shadowed |
| Alarms.AlarmTable.Set | src/alarm/atlas_alarm.c:52-99 | with a descriptor granted, an entry and an alarm with its number are appended; without one nothing changes and -1 is returned |
| Alarms.AlarmTable.Find | src/alarm/atlas_alarm.c:35-36 | the first alarm with an id, or none |
| Alarms.AlarmTable.Cancel | src/alarm/atlas_alarm.c:101-124 | the first alarm with the id is unlinked, its scheduler entry marked and its descriptor closed; an unknown id changes nothing |
| Alarms.AlarmTable.GiveUp | src/data_plane_connector/atlas_data_plane_connector.c:424-425 | a watched descriptor's entry is marked and the descriptor closed |
| Alarms.AlarmTable.Surrender | src/coap/atlas_coap_client.c:249-252 | what a completed request gives up, in the order of the code: its entry is marked, its alarm canceled, its context closed |
| Alarms.AlarmTable.Watch | src/data_plane_connector/atlas_data_plane_connector.c:428-434 | a descriptor that is granted gets a live entry; otherwise nothing changes |
| Alarms.AlarmSetKeeps | src/alarm/atlas_alarm.c:52-99 | a new alarm's id is nobody's, and alarms and live trigger entries still agree one for one |
| Alarms.DeletedExact | src/alarm/atlas_alarm.c:115-116 | an unshadowed deletion with the close that follows drops that number from every live list it was in and leaves the rest distinct and open |
| Alarms.AlarmCanceledExact | src/alarm/atlas_alarm.c:101-124 | canceling an armed alarm keeps alarms and entries in agreement if and only if its number is not shadowed; otherwise a closed descriptor stays watched |
| CoapClient.Client.SetTimeout | src/coap/atlas_coap_client.c:306-321 | the request's alarm is set, or nothing is left behind |
| CoapClient.Client.AddRequest | src/coap/atlas_coap_client.c:288-341 | succeeds exactly when both descriptors can be had, and then adds request, entry and alarm; the error path undoes everything |
| CoapClient.Client.Send | src/coap/atlas_coap_client.c:399-503 | every exit of a submission: accepted, or without effect but for a used token number |
| CoapClient.Client.HandleMessage | src/coap/atlas_coap_client.c:168-228 | finds the request of the context, ignores a wrong token, else marks it and calls its callback with the status of the response class |
| CoapClient.Client.OnReadable | src/coap/atlas_coap_client.c:230-260 | messages are handled, and a request found dirty gives up its entry, its alarm and its context |
| CoapClient.Client.OnTimeout | src/coap/atlas_coap_client.c:262-286 | the callback runs with a time-out, then the request, its entry and its context go |
| CoapClient.Client.TriggerAlarm | src/alarm/atlas_alarm.c:29-50 | the alarm's callback runs, re-entrantly, and a run-once alarm is canceled afterwards |
| RequestChain.Chain.Add | src/coap/atlas_coap_client.c:326-333 | a request is linked behind the last one |
| RequestChain.Chain.Walk | src/coap/atlas_coap_client.c:237-258 | the walk ends at the first request with the property and remembers the node before it |
| RequestChain.Chain.Answer | src/coap/atlas_coap_client.c:181-225 | one request is made dirty in place, and what its callback submits goes to the end of the same list |
| RequestChain.Chain.OnReadable | src/coap/atlas_coap_client.c:230-260 | re-entrant removal by pointers, for any number of matching messages: unlinking through the predecessor remembered before the callbacks leaves exactly the other requests, with the new ones behind them |
| RequestChain.Chain.OnTimeout | src/coap/atlas_coap_client.c:262-286 | the same on the time-out path |
| RequestChain.Chain.Process | src/coap/atlas_coap_client.c:240 | the messages of one context find the same request each time, although the list grows between them |
| RequestChain.ResponseRefined | src/coap/atlas_coap_client.c:230-260 | under callbacks that do anything to alarms besides, there are submissions, one lot per matching message and together all that is new, with which the pointer form leaves the response handler's list |
| RequestChain.TimeoutRefined | src/coap/atlas_coap_client.c:262-286 | the same on the time-out path, with the one callback's submissions |
| Ownership.SubmittedKeeps | src/coap/atlas_coap_client.c:288-341 | a submission, accepted or not, keeps every owner and touches nobody else's descriptors |
| Ownership.CancelOther | src/alarm/atlas_alarm.c:101-124 | canceling an application's alarm takes nothing from the requests |
| Ownership.RanExtends | src/coap/atlas_coap_client.c:326-333 | whatever a callback does, requests and entries are only appended and dirty bits only set |
| Ownership.RanKeeps | src/coap/atlas_coap_client.c:219-225 | a callback of any length that breaks no rule keeps the ownership |
| Ownership.RanOnce | src/coap/atlas_coap_client.c:219-225 | nested submissions get contexts of their own and start unanswered |
| Ownership.OwnersUnique | src/coap/atlas_coap_client.c:237-238 | searching by descriptor or by alarm finds the one request that owns it |
| Ownership.OwnAlarm | src/coap/atlas_coap_client.c:315-321 | each pending request has an armed run-once alarm with the time-out callback |
| Ownership.FinishedKeeps | src/coap/atlas_coap_client.c:242-255 | releasing one request leaves every other owner in place |
| Ownership.FinishedExact | src/coap/atlas_coap_client.c:242-255 | completing a request keeps the ownership if and only if neither of its two numbers is shadowed at its deletion |
| Ownership.DrainedServes | src/coap/atlas_coap_client.c:168-228 | after a drain the callback has been called once per matching message, with its status, and the request is dirty exactly when one matched |
| Ownership.MessageExact | src/coap/atlas_coap_client.c:181-225 | by bytes and codes: a message with the four bytes of a pending request's token completes it, as reset when it is a RST, with success exactly for codes 2.xx, as not found exactly for 4.xx, and as unknown otherwise; any other message changes nothing |
| Ownership.DrainedExact | src/coap/atlas_coap_client.c:168-228 | over all messages of a context, in order, each that carries the token completes the request by that table, and nothing else is logged |
| Ownership.ResponseListed | src/coap/atlas_coap_client.c:230-260 | the same of the response handler; without such a message nothing changes, with one the request leaves the list |
| Ownership.WrongTokenIgnored | src/coap/atlas_coap_client.c:192-201 | messages without the request's token change nothing at all |
| Ownership.MessageKeeps | src/coap/atlas_coap_client.c:168-228 | one message keeps every owner and exactly-once completion |
| Ownership.RespondedExact | src/coap/atlas_coap_client.c:230-260 | re-entrant removal loses nothing: the list afterwards is the old one without that request, at whatever position, followed by all new requests in order |
| Ownership.RespondedKeeps | src/coap/atlas_coap_client.c:230-260 | serving a response keeps ownership, leaves no request dirty and each answered once |
| Ownership.TimeoutIsFinish | src/coap/atlas_coap_client.c:262-286 | a time-out, split between two modules, releases exactly what a response releases |
| Ownership.RanKeepsFiring | src/alarm/atlas_alarm.c:38-45 | the alarm a callback runs for is still listed afterwards, so that canceling it hits it |
| Ownership.TriggeredKeeps | src/alarm/atlas_alarm.c:29-50 | serving an expired alarm of any kind keeps ownership and exactly-once completion |
| EventLoop.PassCallsOnce | src/scheduler/atlas_scheduler.c:93-100 | a pass over a growing list terminates, and its calls go to ever later entries, each for a descriptor whose bit was still set |
| EventLoop.CallsOnceMeans | src/scheduler/atlas_scheduler.c:95-99 | no descriptor and no entry is called twice, and exactly the called descriptors lose their bit |
| EventLoop.PassServesAll | src/scheduler/atlas_scheduler.c:95-99 | no ready live entry is passed over, appended ones included |
| EventLoop.DirtyNotCalled | src/scheduler/atlas_scheduler.c:96-97 | an entry made dirty earlier in the pass is never called |
| EventLoop.LiveIsOwned | src/scheduler/atlas_scheduler.c:21-45 | the live descriptors are, counted, the alarms, the requests, the listeners and at most one data-plane socket |
| EventLoop.ConnectedExact | src/data_plane_connector/atlas_data_plane_connector.c:418-435 | replacing the data-plane connection keeps the ownership if and only if the old socket's number is not shadowed |
| EventLoop.ConnectedKeeps | src/data_plane_connector/atlas_data_plane_connector.c:418-435 | and then the listeners, the requests and exactly-once completion as well |
| EventLoop.SocketReadExact | src/data_plane_connector/atlas_data_plane_connector.c:381-386 | a failing read unwatches the socket if and only if its number is not shadowed; in either case the whole invariant is kept, and in the second nothing changes |
| EventLoop.SocketReadKeeps | src/data_plane_connector/atlas_data_plane_connector.c:372-416 | a read keeps the invariant when it fails, and when the callbacks it reaches break no rule |
| EventLoop.HandledKeeps | src/scheduler/atlas_scheduler.c:97 | whichever handler is called, the invariant holds again when it returns |
| EventLoop.PassKeeps | src/scheduler/atlas_scheduler.c:93-100 | a whole pass keeps the invariant and the listeners |
| EventLoop.RoundKeeps | src/scheduler/atlas_scheduler.c:68-101 | a whole round keeps them |
| EventLoop.OnlyWatched | src/scheduler/atlas_scheduler.c:87-95 | a report of descriptors that were not watched at the sweep is no report: the round only sweeps |
| EventLoop.RunKeeps | src/scheduler/atlas_scheduler.c:59-102 | over every run with `clean` true at the end: ownership across the three lists, no dirty request between handlers, and each accepted request called back exactly once |
| PoliteSteps.OldNotShadowed | src/scheduler/atlas_scheduler.c:47-57 | a number that is live among entries left by the last sweep is not shadowed, whatever was appended since |
| PoliteRuns.PoliteKeeps | src/scheduler/atlas_scheduler.c:59-102 | from any steady state, over every run in which no number offered still has its bit set, scripts keep the cancel rules and each drain brings at most one match: no deletion is shadowed and the whole invariant holds, a condition on the inputs alone |
| PoliteRuns.StartKeeps | src/atlas_main.c:114-139 | the same from `main`'s own start, with REGISTER pending |
| EventLoop.StartedIsSteady | src/atlas_main.c:114-139 | after REGISTER has been submitted, successfully or not, and both listeners started, the invariant holds and exactly these two listen |
| EventLoop.Loop.Accept | src/data_plane_connector/atlas_data_plane_connector.c:418-435 | the accept handler on the lists in memory |
| EventLoop.Loop.Read | src/data_plane_connector/atlas_data_plane_connector.c:372-386 | the read handler on the lists in memory |
| EventLoop.Loop.Visit | src/scheduler/atlas_scheduler.c:95-99 | the walk finds its way on through the node it holds although the handler changed the list |
| EventLoop.Loop.Dispatch | src/scheduler/atlas_scheduler.c:93-100 | the pointer walk terminates and makes exactly the calls of the pass |
| EventLoop.Loop.Turn | src/scheduler/atlas_scheduler.c:68-101 | sweep, `select` and dispatch make one round |
| NumberReuse.ReuseBreaksOwnership | src/scheduler/atlas_scheduler.c:52-56 | a run from `main`'s start: two time-outs, a retry timer on a number just closed, its stale bit served, and a live entry without owner left on a closed descriptor |
| NumberReuse.LowestThroughout | src/scheduler/atlas_scheduler.c:93-100 | the states of that run at which numbers are offered; each is the lowest free one |
| Descriptors.RunAccounted | src/scheduler/atlas_scheduler.c:59-102 | over every run, whatever rules are broken: the open descriptors are, counted, the armed alarms, the pending requests, the listeners and the connection |
| Descriptors.NothingLeaks | src/atlas_main.c:114-139 | so from `main`'s start no descriptor is ever leaked, closed too early or shared by two owners |
| Descriptors.WatchedIsOpen | src/scheduler/atlas_scheduler.c:59-102 | as long as no rule is broken, exactly the open descriptors are watched, except for a connection that could not be read |
| Tokens.RefusedExact | src/coap/atlas_coap_client.c:399-503 | a submission that fails leaves nothing behind but, once it has a session, a used token |
| Tokens.AcceptedExact | src/coap/atlas_coap_client.c:288-341 | one that succeeds is the last in the list, with its token, its run-once alarm and its two descriptors |
| Tokens.RunDrawn | src/coap/atlas_coap_client.c:51-57 | over every run the pending requests' tokens were drawn one after the other from one 32-bit counter |
| Tokens.SameToken | src/coap/atlas_coap_client.c:51-57 | two pending requests have the same token if and only if a multiple of 2^32 tokens lie between them |
| Tokens.TokensDiffer | src/coap/atlas_coap_client.c:437-442 | from `main`'s start, all pending requests' tokens differ as long as the counter has not gone round since the oldest |
| Bytes.NetworkOrder | src/commands/atlas_command.c:48-54 | swapping and storing a word gives network order on either host, and loading and swapping reads it back |
| Bytes.Store32Exact | src/coap/atlas_coap_client.c:437-438 | all four bytes of a 32-bit variable on either host, and no two values look alike |
| Commands.DecodeEncode | src/commands/atlas_command.c:29-57 | what is encoded decodes to the same commands |
| Commands.EncodeDecode | src/commands/atlas_command.c:79-104 | a buffer that decodes is the encoding of the result, byte for byte |
| Commands.DecodeExact | src/commands/atlas_command.c:79-104 | a buffer decodes if and only if it is a concatenation of whole frames, which is then unique |
| Commands.FrameBytes | src/commands/atlas_command.c:41-54 | the bytes of a frame: type and length, high byte first, then the value |
| Commands.ImageAt | src/commands/atlas_command.c:134-135 | one visit changes the header of its command and no other byte |
| Commands.RestartFaithful | src/commands/atlas_command.c:122-137 | starting over on a visited header reads it unchanged if and only if the host is big-endian or both words are palindromes of bytes |
| CommandBatch.Batch.Add | src/commands/atlas_command.c:29-57 | the buffer becomes longer by exactly the frame of the command |
| CommandBatch.Batch.SetRaw | src/commands/atlas_command.c:69-111 | succeeds if and only if the input is not empty and decodes, and then holds it; otherwise the batch is as before |
| CommandBatch.WholeFrames | src/commands/atlas_command.c:79-104 | the validating scan terminates and accepts exactly the buffers that decode |
| CommandBatch.Batch.Get | src/commands/atlas_command.c:113-138 | the cursor steps to the next command, swaps that header in place and stops exactly at the end; the first headers are in host order, the rest and all values untouched |
| CommandBatch.Batch.Visible | src/commands/atlas_command.c:134-137 | every visited command reads as the structure it is, inside the buffer |
| CommandBatch.CursorMoves | src/commands/atlas_command.c:126-131 | the step leads to the next frame, and to the end of the buffer exactly after the last |
| CommandBatch.HeaderSwapped | src/commands/atlas_command.c:134-135 | swapping the next header in place turns one image of the buffer into the next |
| CommandBatch.Batch.SwapHeader | src/commands/atlas_command.c:134-135 | the two header words are swapped in place and no other byte changes |
| CommandBatch.Collect | src/commands/atlas_command.c:113-138 | iterating once from the beginning yields exactly the commands, in order |
| CommandBatch.RoundTrip | src/commands/atlas_command.c:29-138 | commands added on one host and taken over on another, of either byte order, come back the same; only an empty list is refused |
| Alerts.ParsePush | src/telemetry/atlas_alert_utils.c:9-53 | succeeds if and only if the buffer is well formed and holds a 2-byte push rate, and stores the first one; otherwise the variable is untouched |
| Alerts.FirstPushRateExact | src/telemetry/atlas_alert_utils.c:31-41 | the rate is that of the first command of type 513 with two bytes, high byte first; none exactly when there is no such command |
| Alerts.ParseThreshold | src/telemetry/atlas_alert_utils.c:55-115 | succeeds if and only if there is a 2-byte scan rate; stores the last one, and the last non-empty threshold or none |
| Alerts.LastScanRateExact | src/telemetry/atlas_alert_utils.c:79-91 | the rate is that of the last command of type 514 with two bytes |
| Alerts.LastThresholdExact | src/telemetry/atlas_alert_utils.c:79-102 | the threshold is that of the last command of type 515 that is not empty |
| Alerts.AcceptedWithoutThreshold | src/telemetry/atlas_alert_utils.c:98-102 | a batch without threshold that is accepted |
| ExecuteGate.Gate.Parse | src/commands_execute/atlas_command_execute_utils.c:32-92 | a closed gate defers; an open one refuses empty or malformed input, and else schedules the batch's matching commands whose alarm can be set and closes if there is one |
| ExecuteGate.Gate.Apply | src/commands_execute/atlas_command_execute_utils.c:56-86 | the loop schedules several alarms of one batch although the first closes the gate |
| ExecuteGate.OneBatchSchedules | src/commands_execute/atlas_command_execute_utils.c:39-86 | over every run, the alarms set are those of the first batch that sets any, in order, and of no other |
| ExecuteGate.ScheduleExact | src/commands_execute/atlas_command_execute_utils.c:56-77 | told from the commands: one alarm for each command of type 0 or 1 whose alarm can be set, in order, a restart for type 0 and a shutdown for type 1, and no others |
| ExecuteGate.AnswerExact | src/commands_execute/atlas_command_execute_utils.c:39-54 | each of the four answers if and only if: gate closed; input empty; input no sequence of commands; otherwise |
| ExecuteGate.AchievedAt | src/commands_execute/atlas_command_execute_utils.c:61-77 | the alarms scheduled are a subsequence of those asked for: exactly the ones whose alarm can be set, each from its place, in order |
| ExecuteGate.AchievedAll | src/commands_execute/atlas_command_execute_utils.c:61-77 | with alarms to be had, every matching command is scheduled, in order |
| ExecuteGate.MalformedSchedulesNothing | src/commands_execute/atlas_command_execute_utils.c:44-54 | an empty or malformed batch schedules nothing |
| Connector.BuildRegistration | src/data_plane/atlas_client.c:118-149 | the nested batch of the application's three values |
| Connector.BuildStatistics | src/data_plane/atlas_client.c:165-180 | the batch of the two counters |
| Connector.BuildFields | src/data_plane/atlas_client.c:129-143 | three commands with two-byte values become their encoding |
| Connector.DataPlaneConnector.SendPolicy | src/data_plane_connector/atlas_data_plane_connector.c:96-140 | nothing before a policy is known, then the three values in network order |
| Connector.DataPlaneConnector.ParsePolicy | src/data_plane_connector/atlas_data_plane_connector.c:307-344 | refuses empty and malformed input, else overwrites the fields in order and sends the policy |
| Connector.DataPlaneConnector.Receive | src/data_plane_connector/atlas_data_plane_connector.c:388-415 | each command of a well-formed message is dispatched by its type, in order |
| Connector.DataPlaneConnector.BuildWithIdentity | src/data_plane_connector/atlas_data_plane_connector.c:286-294 | a value for the gateway goes behind the client's identity |
| Connector.FieldsArrive | src/data_plane_connector/atlas_data_plane_connector.c:328-338 | the three fields of the inner batch are stored as they were, on either host |
| Connector.PolicyArrives | src/data_plane_connector/atlas_data_plane_connector.c:96-128 | end to end: for every three values and either byte order, the gateway decodes them from the one message that is sent |
| Connector.StatisticsArrive | src/data_plane_connector/atlas_data_plane_connector.c:54-60 | of each reported counter the connector keeps one half |
| Connector.StatisticFaithful | src/data_plane_connector/atlas_data_plane_connector.c:54-60 | a counter is kept as it was if and only if it fits 16 bits on a little-endian host, or is 0 on a big-endian one |
| Connector.RegistrationBytes | src/data_plane/atlas_client.c:118-149 | the bytes of a registration, by type numbers and lengths |
| Connector.StatisticsBytes | src/data_plane/atlas_client.c:165-180 | the bytes of a report: the samples have type 1001 and their average 1002 |
| Connector.CommandExact | src/data_plane_connector/atlas_data_plane_connector.c:399-412 | by type numbers, what each command without a policy stores or passes on, byte for byte, and that it does nothing else |
| PolicyRuns.RunCounts | src/data_plane_connector/atlas_data_plane_connector.c:96-140 | over every mixture of messages read and calls by other modules: as many policy messages as policy commands read and calls made since the first of them |
| PolicyRuns.CallExact | src/data_plane_connector/atlas_data_plane_connector.c:106-128 | a call by another module sends nothing until a policy has been read, and afterwards one message whose bytes are the three values stored |
| PolicyRuns.FieldsLast | src/data_plane_connector/atlas_data_plane_connector.c:327-338 | each stored value is that of the last command of its type, or as it was |
| Reconnect.Retried | src/data_plane/atlas_client.c:218-231 | the mutual recursion of writing, connecting and registering terminates for every finite plan of failures, with a socket at the end |
| Reconnect.RetriedMeans | src/data_plane/atlas_client.c:218-231 | the message is delivered once and last; before it only registrations are, one for each connection made; each connection is first written to with one and abandoned when a write fails |
| Reconnect.ReconnectedMeans | src/data_plane/atlas_client.c:186-216 | connecting fails only for want of a socket; else it ends with the registration delivered |
| Reconnect.StartedMeans | src/data_plane/atlas_client.c:403-436 | over every run the first write on each connection is the registration, as many are delivered as connections were made, and the other messages delivered are those accepted, in order |
| Reconnect.WroteExact | src/data_plane/atlas_client.c:218-231 | one write: failed without a socket or when the call fails, whole, or cut short |
| Reconnect.StartedObeys | src/data_plane/atlas_client.c:186-231 | over every run each event is what the answer to the next system call makes of it, one answer for each call |
| Reconnect.ReceivedAllMeans | src/data_plane_connector/atlas_data_plane_connector.c:372-416 | reading any mixture of registrations and other messages, the connector sends one policy message for each registration |
| Reconnect.PolicyFollows | src/data_plane/atlas_client.c:118-156 | end to end over every run, provided everything delivered is read (a replaced connection is closed with what is unread in it): the gateway gets one policy message per connection made, each with the application's values |
| Reconnect.NeutralExact | src/data_plane_connector/atlas_data_plane_connector.c:399-410 | a message leaves the policy, and what is sent of it, alone if and only if no policy command in it has a value that is not empty and decodes |
| Reconnect.OthersNeutral | src/data_plane/atlas_client.c:165-180 | statistics, identity questions, feedback and reputation questions leave the policy alone |
| Reconnect.DataPlaneSocket.WriteRetry | src/data_plane/atlas_client.c:218-231 | the loop with its recursion makes exactly the calls of the retry function |
| Reconnect.DataPlaneSocket.Connect | src/data_plane/atlas_client.c:186-216 | closing, opening, connecting until it works, and registering |
| PacketStatistics.RunReports | src/data_plane/atlas_client.c:158-184 | under every interleaving of the locked sections, each report counts and averages the packets of its own window, and the counters those of the open one |
| PacketStatistics.WindowsPartition | src/data_plane/atlas_client.c:239-249 | the windows make up all packets, in order: none is lost or reported twice |
| PacketStatistics.Conservation | src/data_plane/atlas_client.c:175-176 | reported counts plus the current one equal the packets received |
| PacketStatistics.AverageIsFloor | src/data_plane/atlas_client.c:246 | for lengths that are not negative the average is the floor, and the only such number |
| PacketStatistics.UnsignedExact | src/data_plane/atlas_client.c:165-180 | the memory of an `int` is its value, or 2^32 above a negative one |
| PacketStatistics.ReportArrives | src/data_plane_connector/atlas_data_plane_connector.c:401-404 | on a little-endian host the connector stores the low 16 bits of count and average, which are the values exactly when they fit |
| PacketStatistics.Counters.PacketReceived | src/data_plane/atlas_client.c:239-249 | one locked section; the average fits an `int` whenever the sums do |
| PacketStatistics.Counters.TakeReport | src/data_plane/atlas_client.c:158-184 | the message carries the counters of before the reset |
| Registration.StepExact | src/register/atlas_register.c:39-144 | a step keeps the one thread of activity if and only if no REGISTER request or alarm it needs fails to be created; otherwise nothing is left |
| Registration.RunExact | src/register/atlas_register.c:39-144 | over every run: one REGISTER in flight, or one retry alarm, or registered with one periodic alarm and at most one KEEPALIVE, if and only if no creation failed; else dead |
| Registration.DeadRun | src/register/atlas_register.c:118-144 | a client without request and alarm never changes again |
| Registration.StartedIsSingle | src/register/atlas_register.c:225-231 | starting begins the first phase exactly when the request can be created |
| Registration.NeverStalls | src/register/atlas_register.c:14-15 | in every phase there is a next event, at most 20 seconds away |
| Registration.EchoIsGood | src/register/atlas_register.c:71-94 | the echo of the token sent is always good, restores the counter and keeps the alarm |
| Registration.CounterIs | src/register/atlas_register.c:92-100 | the counter is what it was last set to, less the plain failures since, modulo 256 |
| Registration.CountdownExact | src/register/atlas_register.c:64-110 | over a whole run, told from statuses and payloads: the counter is what it was last set to, 3 by an echo of the token and 0 by a 404 or 406, less the other responses since, modulo 256 |
| Registration.RunCounts | src/register/atlas_register.c:112-144 | over a run only keep-alive responses move the counter; registering leaves it |
| Registration.LostExact | src/register/atlas_register.c:55-110 | a registered client stops being registered if and only if a keep-alive completes with 404 or 406, or without the token for the n-th time in a row, n being what the counter was last set to, modulo 256 |
| Registration.LostFromStart | src/register/atlas_register.c:27-30 | since the start it takes 256 responses without the token |
| Registration.KeepAliveExact | src/register/atlas_register.c:55-110 | by status and payload: an echo sets the counter to 3; a 404 or 406 registers anew at once, whatever the counter; anything else counts down and registers anew at 0 |
| Registration.RegisterExact | src/register/atlas_register.c:112-144 | by status, with the times: success pushes the features, sends the policy only if the client was not registered and starts the 20 s alarm; anything else sets the 5 s alarm |
| Registration.FiringExact | src/register/atlas_register.c:39-53 | the retry alarm registers and is gone; the periodic one sends the next token and comes again after 20 s |
| Registration.PolicyOncePerRise | src/register/atlas_register.c:130-133 | over every run the policy is sent once each time the client becomes registered |
| Registration.Registrar.KeepAliveCallback | src/register/atlas_register.c:55-110 | the checks before the error label and the countdown behind it |
| Registration.Registrar.RegisterCallback | src/register/atlas_register.c:112-144 | retry alarm on failure; policy on a new registration, features, and the periodic alarm on success |
| Registration.Registrar.SendKeepAlive | src/register/atlas_register.c:146-185 | the token moves on even when the request cannot be sent |
| Registration.Registrar.Complete | src/register/atlas_register.c:55-144 | a completed call leaves the calls in flight after its callback |
| Registration.Registrar.Fire | src/register/atlas_register.c:39-53 | the retry alarm registers and goes; the periodic one sends a keep-alive and stays |
| Telemetry.RearmedKeeps | src/telemetry/atlas_telemetry.c:213-220 | replacing a feature's alarm keeps each armed alarm with one owner, a failing timer included |
| Telemetry.RateSetMeans | src/telemetry/atlas_telemetry.c:195-251 | after setting a rate the alarms are exactly the others of before and the feature's new one |
| Telemetry.ZeroRateExact | src/telemetry/atlas_telemetry.c:207-211 | push rate 0 pushes the first feature with the path at once, without threshold, if and only if the client is registered and there is a payload; nothing else changes |
| Telemetry.NothingSet | src/telemetry/atlas_telemetry.c:195-251 | an unknown path, and scan rate 0, change nothing |
| Telemetry.PushAllExact | src/telemetry/atlas_telemetry.c:184-193 | a registered client sends exactly the features that give a payload, in order and without threshold; another sends nothing |
| Telemetry.StepKeeps | src/telemetry/atlas_telemetry.c:132-251 | each operation, and what other modules do with alarms and descriptors of theirs, keeps the ownership |
| Telemetry.RunKeeps | src/telemetry/atlas_telemetry.c:132-251 | over every run: ids distinct, and per role the armed alarms are those the features keep, each kept once |
| Telemetry.OwnerUnique | src/telemetry/atlas_telemetry.c:43-48 | no two features keep the same alarm |
| Telemetry.FiringPushesOwner | src/telemetry/atlas_telemetry.c:35-65 | an alarm going off pushes its one owner and no other feature, with the threshold exactly for a scan |
| Telemetry.AlarmCount | src/telemetry/atlas_telemetry.c:195-251 | the telemetry alarms are as many as the ids kept, at most two per feature |
| Telemetry.StartsOwned | src/telemetry/atlas_telemetry.c:30-31 | the ownership holds at the start whatever alarms other modules have |
| Telemetry.Registry.SetRate | src/telemetry/atlas_telemetry.c:195-251 | the walk to the first feature with the path, and what is done with its alarm, on the lists in memory |
| Telemetry.Registry.AlarmCallback | src/telemetry/atlas_telemetry.c:35-65 | the walk to the first feature that keeps the id |
| Telemetry.Registry.PushAll | src/telemetry/atlas_telemetry.c:184-193 | every feature is pushed once, in list order |
| Telemetry.Registry.Add | src/telemetry/atlas_telemetry.c:132-157 | a feature without alarms is appended |
| CallbackRules.TelemetryKeepsRules | src/telemetry/atlas_telemetry.c:213-220 | the alarm that setting a rate cancels is neither the one that is firing nor a request's; as a script of the core the operation leaves exactly telemetry's alarm table, and it is polite if and only if the old alarm can be found and the new number is not still ready |
| CallbackRules.SecondRateOrphans | src/telemetry/atlas_telemetry.c:213-220 | replacing an alarm twice between two sweeps, the first time with the number just closed, breaks the agreement of alarms and entries whatever the second is given |
| CallbackRules.KeepAliveKeepsRules | src/register/atlas_register.c:100-109 | the alarm that losing registration cancels is neither the one that is firing nor a request's |
| CallbackRules.CancelMirrors | src/alarm/atlas_alarm.c:101-124 | whoever cancels an alarm, registration's alarms and the alarm list go on agreeing |
| CallbackRules.SetMirrors | src/register/atlas_register.c:121-143 | a timer that the table can set is one that registration accepts, and they agree about it |
| CallbackRules.OthersMirror | src/alarm/atlas_alarm.c:52-99 | other modules' alarms are none of registration's |
| RegistrationThread.OwnRan | src/register/atlas_register.c:39-144 | a completed request's callback, among other modules' actions, leaves one thread of activity once its request is gone, and keeps an unbroken one when its creations succeed |
| RegistrationThread.ExpiredThread | src/alarm/atlas_alarm.c:29-50 | so does an alarm's, the cancellation that follows included |
| RegistrationThread.RunThread | src/scheduler/atlas_scheduler.c:59-102 | over every clean run of the main loop: never two of REGISTER in flight, retry alarm and periodic alarm, and exactly one as long as no creation of registration's fails |
| RegistrationThread.StartedThread | src/atlas_main.c:114-139 | `main` starts one thread of activity if and only if REGISTER can be sent |
| RegistrationThread.StartRunThread | src/atlas_main.c:114-139 | the same over runs from `main`'s start, with conditions on the inputs alone |

## Left out

- CommandBatch.Batch.Add: requires that the total length fits the `uint16_t` of the C structure, because the code lets it wrap and then writes behind the block.
- CommandBatch.Batch.Get: a batch is iterated over once; what a second iteration would read is `Commands.RestartFaithful`.
- CoapClient.Client.OnReadable: the request list is a sequence in this class; its nodes and pointers are those of `RequestChain.Chain`.
- RequestChain.Chain.Answer: callbacks submit requests here and do nothing to alarms, which are not part of this list.
- RequestChain.Chain.OnReadable: as `Chain.Answer`; `RequestChain.ResponseRefined` says that alarms make no difference to the list.
- RequestChain.Chain.OnTimeout: as `Chain.Answer`; see `RequestChain.TimeoutRefined`.
- EventLoop.RunKeeps: speaks of runs with `clean` true at the end, because a shadowed deletion does break the ownership; `Ownership.FinishedExact`, `Alarms.AlarmCanceledExact` and `EventLoop.ConnectedExact` give the exact condition at each deletion, `PoliteRuns.PoliteKeeps` one on the inputs.
- Reconnect.PolicyFollows: is about messages that are read; `atlas_data_plane_accept_cb` closes a replaced connection with what is unread in it.
- PacketStatistics.Counters.PacketReceived: requires sums that fit an `int`, because signed overflow has no defined result in C.
- Telemetry.RunKeeps: is about runs without `atlas_telemetry_del`, which nothing calls and which leaves the feature's alarms armed.
- Connector.DataPlaneConnector.ParsePolicy: a value shorter than two bytes is read beyond its end; what lies there is a parameter.
- libcoap, DTLS, name resolution, URI and option building, `select`, timers and sockets: steps of the environment with any result; a context and its session are one number.
- The limit of 1024 descriptors in an `fd_set`, and memory being exhausted or freed.
- Alarm periods: the alarm table has no clock; `Registration.World` has the deadlines that matter there.
- Deadlines are proved in a state of registration's own; the core has no clock. `CallbackRules` and `RegistrationThread` connect the two.
- RegistrationThread.RunThread: that a keep-alive times out before its next period is a rule here, proved in `Registration` with the clock.
- RequestChain.Chain.Process: every message is taken to match; callbacks only submit requests.
- `telemetry_callback`, which repeats a push by searching the URI for a feature's path with `strstr`, and the payload functions of the features.
- The CoAP server's listener lists: appending and looking up.
- Reputation answers to the data plane and the identity exchange beyond the message format.
- `atlas_data_plane.c` (simulator, MQTT, scoring in floating point), identity and key files, logging, the command line and the `system()` calls.
