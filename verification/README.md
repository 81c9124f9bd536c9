# A verified model of the Auxot router and workers

Auxot routes language-model jobs from API callers to workers. A job is put on a Redis stream, delivered to one
worker's pending list (PEL), takes a slot there, and ends in a completion, an error or a timeout; a sweeper moves the
jobs of dead workers to live ones. A completion that asks for tools parks the job until every call is answered, then
the same job is queued again with the answers in its history. The workers drive llama.cpp or the Claude CLI, and
the callers read token streams in several dialects.

This project models that logic in Dafny and proves what it keeps. Code that updates state in place is modelled by
classes and loops, each proved to compute a specification function of its old state; the theorems are about those
functions, so they carry over to the methods. Redis, clocks, sends, fresh ids and map orders are parameters.

## Layout

| files | what they model |
|---|---|
| Prelude, Strings, Tags, Protocol | options and sequences, Go's string search and trimming, tags in text, wire values |
| JobStream, Redis | stream, cursor, PEL and consumer group; the queue, heartbeat and token-stream clients |
| Continuations, ToolRouting, Sweeping | tool rounds, the choice of a tools worker, one sweep, as functions |
| Router | the protocol as a step system: state, 18 kinds of step, runs |
| RouterBasics, RouterSafety | what every step keeps; no accepted job is lost |
| RouterPlaces, RouterDiscipline, RouterRuns | one place per job, histories, at most one terminal event |
| RouterTools, RouterAnswers | the answer bookkeeping of tool rounds over runs, and where each tool message comes from |
| RouterLimits | the exact conditions where a guarantee fails, slot bounds |
| PoolClass, ToolsHandler, WorkerHandler, ReaderLoop, SweeperLoop | the handlers, the pool, the reader loop and the sweeper with their tables updated in place |
| CliTurn, CliTurnTheorems, CliLoop | the Claude CLI event loop: fold, theorems, and the loop itself |
| SessionFile, SessionBuilder | the synthetic session file and its decoding |
| AnthropicStream, AnthropicHandler | the streaming response, a client reading it, and the blocking response |
| XmlToolCalls, XmlPrinting, XmlRoundTrip | tool calls written as text: extraction, and that it undoes printing |
| ThinkSplit, StderrCapture, ToolCallDeltas | incremental parsers and mergers |
| ContextTruncation, JsonLength, BashOutput, Redaction | bounded output and redaction |

`dafny verify dfyconfig.toml` checks everything.

## Where the code and what is said about it differ

The model follows the code in each of these places.

- The comment on `splitThinkContent` (internal/worker/executor.go:633-636) says that partial tags across chunks work.
  They do not: `ThinkSplit.ChunkingIff` gives the exact condition.
- The comment on `reclaimFromConsumer` (pkg/queue/sweeper.go:129-131) says that all pending messages move. Only the
  first 100 do, and the rest are dropped from the PEL: `RouterLimits.SweepLosesNothingIff`.
- The comment in `continueLLMRound` (internal/router/toolshandler.go:673-674) says that carrying the thread id keeps
  routing sticky. The re-enqueued job has no reference id, so its dispatch resets the thread:
  `RouterLimits.ThreadSurvivesRoundIff`.
- The comments on the inline form (internal/worker/qwen_tool_xml.go:23-25, 104) present it as a fallback of its own. It is
  looked for only in text that contains a `<tool_call>` marker: `XmlToolCalls.ExtractXmlToolCalls`.
- The `break` at a full worker in the reader loop (internal/router/wshandler.go:429-430, "no point trying more
  entries") leaves only the `switch`; the entries behind are still tried: `WorkerHandler.WSHandler.RetryPending`.
- The comment after a failed exit (internal/cliworker/claude.go:810-811) takes a cancelled context for the loop's own kill.
  The kill cancels only the subprocess's context; the branch tests the job's. Both ways, collected calls are reported:
  `CliTurnTheorems.CompletedReportsTurn`.
- The comments on the batch kill assume that calls come before the rate-limit event. A call that comes after it is
  collected, but nothing kills the subprocess: `CliTurnTheorems.LateCallLeavesProcessRunning`.
- The comment on `AllowedToolDefs` (internal/router/toolshandler.go:378-380) says that only tools advertised by a connected
  tools worker are listed. The code lists all allowed tools it knows as soon as any tools worker is connected:
  `ToolsHandler.ToolsWSHandler.AllowedToolDefs`.
- The comment on `failPendingToolJobs` (internal/router/toolshandler.go:332) announces failing a lost tools worker's
  calls; the code only logs, so disconnecting a tools worker changes nothing but the worker map.
- The minimal JSON message for oversized bash output (pkg/codingtools/bash.go:274-276) is never needed:
  `BashOutput.AlwaysFits`.

## Model

| member | source | states |
|---|---|---|
| RouterSafety.NoJobLost | internal/router/wshandler.go:488-931 | Over any run whose sweeps meet no dead consumer with more than 100 pending entries (or nobody alive), a job submitted at some step is at every later state in the queue (undelivered or pending), in a parked or firing continuation, or has a terminal event; completions for idle jobs, duplicate answers, lost heartbeats and failed sends are all allowed. |
| RouterSafety.StepKeeps | internal/router/wshandler.go:488-931 | Each of the 18 kinds of step keeps the queue well formed, every slot pointing at its own job's entry, the pool a mirror of the connection table and continuations filed under their job; and, unless it is a sweep over the page limit, every job accounted for stays accounted for. |
| RouterSafety.RunKeepsBase | internal/router/wshandler.go:105-131 | That invariant holds in every reachable state. |
| RouterSafety.RunKeepsTrack | internal/router/toolshandler.go:570-712 | A job accounted for at some point of a run is accounted for at every later one. |
| RouterSafety.PoolNeverDisagrees | pkg/gpu/pool.go:64-189 | In every reachable state pool and connection table hold the same workers, limits and active jobs, and the pool grants an assignment exactly when the connection has a free slot, so the discarded error of the pool's assignment never occurs. |
| RouterSafety.CompleteKeeps | internal/router/wshandler.go:782-845 | A completion of any kind (late, with or without calls, whatever calls can be sent) keeps the invariant and loses no job. |
| RouterSafety.DispatchKeeps | internal/router/wshandler.go:488-577 | So does a dispatch of an entry that parses, whatever its outcome: sent, already assigned, worker full, failed send. |
| RouterSafety.ContinueKeeps | internal/router/toolshandler.go:622-712 | A continuation round leaves its job accounted for whether or not the enqueue succeeds. |
| RouterDiscipline.StepSettles | internal/router/wshandler.go:782-885 | Under the stated discipline (fresh job ids, workers report only jobs in flight on them, heartbeats lost only after a disconnect, sweeps within the page) a step keeps: one place per job, at most one terminal event, slots backed by their own PEL entries, and the history carried everywhere. |
| RouterRuns.RunSettles | internal/router/wshandler.go:782-885 | All of that holds in every state of a disciplined run. |
| RouterRuns.ExactlyOnePlace | internal/router/toolshandler.go:570-712 | In a disciplined run, over any number of tool rounds, a job is in exactly one of queue, parked, firing and finished if and only if it was submitted, and never has two terminal events. |
| RouterRuns.SlotsBackedByQueue | internal/router/wshandler.go:105-131 | In a disciplined run an occupied slot's entry is in the stream, is that job's, is pending under that very worker, and no other worker holds the job. |
| RouterRuns.QueuedHistory | internal/router/toolshandler.go:622-684 | Every queued round of a job carries the submitted messages followed, for each earlier round, by the assistant turn and exactly one tool message per call, in call order, with matching ids. |
| RouterDiscipline.RoundHistory | internal/router/toolshandler.go:622-684 | Closing a round extends the transcript of its own job by that round and leaves what all other jobs carry as it was. |
| RouterDiscipline.SweepKeepsSlotsIff | pkg/queue/sweeper.go:59-128 | A sweep with somebody alive leaves every slot backed by its worker's PEL entry if and only if every busy connected worker still has its heartbeat. |
| RouterPlaces.TerminalsCount | pkg/queue/job_queue.go:290-310 | A token stream has a terminal event exactly if its count of terminal events is positive. |
| RouterLimits.CompleteKeepsPlacesIff | internal/router/wshandler.go:782-845 | The one-place state survives a completion if and only if the job is in flight on the reporting worker, or the report replaces a continuation already parked for the same job: a publication for an idle job is the failing family. |
| RouterLimits.ErrorKeepsPlacesIff | internal/router/wshandler.go:848-885 | It survives an error report if and only if the report names no job or one in flight on that worker. |
| RouterLimits.SweepLosesNothingIff | pkg/queue/sweeper.go:136-194 | With somebody alive, a sweep loses no job if and only if no dead consumer holds more than 100 pending entries. |
| RouterLimits.DispatchLosesJobIff | internal/router/wshandler.go:488-577 | Dispatching a pending entry that is its job's only place, whatever the outcome, loses the job if and only if the data does not parse; then the entry is acknowledged and deleted, nothing else changes, and nobody is told. |
| RouterLimits.ThreadSurvivesRoundIff | internal/router/toolshandler.go:622-684 | After a continuation round is dispatched, the thread id used for sticky routing is kept if and only if there was none. |
| RouterLimits.InjectionIsIdempotent | internal/router/wshandler.go:488-524 | Injecting the allowed tools again, as every later round does, adds nothing. |
| RouterLimits.SlotsBoundedByPeak | internal/router/wshandler.go:105-118 | In every run, no worker ever holds more jobs than the largest slot limit it had up to then, across reconfigurations. |
| RouterTools.FiresExactlyOnLast | internal/router/toolshandler.go:570-618 | With an exact count, an answer to an open call fires the round if and only if that call was the only one open; otherwise the count stays exact and positive. |
| RouterTools.DispatchBooks | internal/router/toolshandler.go:466-526 | Sending a round's calls, any of which may fail to be sent and be answered on the spot, ends with exact books: open calls reachable through a tool job, or the round fired with all answers. |
| RouterTools.StepBooks | internal/router/toolshandler.go:414-618 | If call ids are distinct, no answered call is answered again, and no result message for another call strands its tool job's own call, every step keeps the books: `remaining` is the number of open calls, each reachable through a tool job, and fired rounds are complete. |
| RouterTools.ResultKeepsBooksIff | internal/router/toolshandler.go:536-618 | A result message keeps the books if and only if the call it names has no answer yet and its tool job's own call, if another, is not left open without a tool job. |
| RouterTools.RunBooks | internal/router/toolshandler.go:414-618 | The same in every state of a run. |
| RouterTools.RoundsAreComplete | internal/router/toolshandler.go:655-660 | In such a run no continuation round carries the placeholder for a missing result. |
| RouterAnswers.RunTraced | internal/router/toolshandler.go:536-618 | In every run, every stored answer of a parked or firing round was given by a result message, an error message or a failed send for that job and call, no earlier than the completion that made the call. |
| RouterAnswers.QueuedAnswers | internal/router/toolshandler.go:622-684 | In a disciplined run with calls answered once, what a worker is sent is the submitted messages followed, for each earlier round, by the assistant turn and, in call order, for each call the content of the message or failed send that answered it. |
| Continuations.ParkExactIff | internal/router/toolshandler.go:458-475 | A freshly parked continuation's `remaining` counts its open calls if and only if the call ids are distinct. |
| Continuations.RecordExactIff | internal/router/toolshandler.go:570-605 | One answer keeps the count exact if and only if its call was still open. |
| Continuations.SecondAnswerFiresEarly | internal/router/toolshandler.go:586-600 | A concrete round of two calls in which a second answer to the first call brings `remaining` to 0 with the second call open, so that its tool message is the placeholder. |
| Continuations.RecordAllEffect | internal/router/toolshandler.go:570-605 | Distinct answers to known calls leave each answer stored under its call, everything else untouched, and the count lowered by their number. |
| Continuations.FiresOnLastAnswer | internal/router/toolshandler.go:570-618 | If every call is answered once, in any order, the count after k answers is the number still to come, and it reaches 0 with nothing open. |
| Continuations.ArrivalOrderIrrelevant | internal/router/toolshandler.go:622-684 | Whatever the order in which the answers arrive, the next round's job is the same. |
| Continuations.NextRoundAnswersInCallOrder | internal/router/toolshandler.go:640-671 | The next round is the same job with the same tools and parameters; its history is the old one, the assistant turn, and for the i-th call a tool message with its id and the content of its own answer. |
| ToolRouting.PickCovers | internal/router/toolshandler.go:800-857 | The chosen tools worker serves every requested tool whenever some worker does, otherwise at least one of them; none is chosen exactly when nobody serves any. |
| ToolRouting.RankedUnique | internal/router/toolshandler.go:741-769 | A set of worker ids has one ascending listing, so the choice does not depend on map order. |
| ToolRouting.Collect | internal/router/toolshandler.go:800-840 | Walking the workers in any order collects exactly those that cover the names, ascending. |
| ToolRouting.PickToolsWorkerAll | internal/router/toolshandler.go:800-857 | The loop over the worker map computes that choice. |
| ToolsHandler.ToolsWSHandler.SaveJobContext | internal/router/toolshandler.go:352-370 | Saves messages, tools, parameters and thread of a job, if tools are allowed at all; everything else unchanged. |
| ToolsHandler.ToolsWSHandler.DeleteJobContext | internal/router/toolshandler.go:372-378 | Forgets the job's context and changes nothing else. |
| ToolsHandler.ToolsWSHandler.AllowedToolDefs | internal/router/toolshandler.go:381-412 | The definitions of the allowed tools that are known, in order; none without a tools worker. |
| ToolsHandler.ToolsWSHandler.StartContinuation | internal/router/toolshandler.go:414-527 | Parks the job and sends its calls one by one, answering at once those that cannot be sent; false, with nothing changed, exactly if there are no calls, no context or no suitable worker. |
| ToolsHandler.ToolsWSHandler.RecordToolResult | internal/router/toolshandler.go:570-618 | In-place form of recording one result: unknown jobs and calls change nothing, the last answer moves the continuation out of the map to be run. |
| ToolsHandler.ToolsWSHandler.HandleToolResult | internal/router/toolshandler.go:536-553 | Forgets the tool job and records the result for the job and call named in the message. |
| ToolsHandler.ToolsWSHandler.HandleToolError | internal/router/toolshandler.go:556-566 | Turns an error message into the answer of the call its tool job was for; unknown tool jobs change nothing. |
| ToolsHandler.ToolsWSHandler.ContinueLLMRound | internal/router/toolshandler.go:622-712 | The loop that rebuilds the history, saves it as the job's context and enqueues the next round under the same job id, or reports that this failed. |
| WorkerHandler.WSHandler.Connect | internal/router/wshandler.go:282-316 | Registers connection, pool entry and heartbeat with the worker's own slot count if positive, else the configured one; nothing happens if the id is taken. |
| WorkerHandler.WSHandler.HandleConfig | internal/router/wshandler.go:698-732 | A positive slot count replaces the limit in pool and connection alike. |
| WorkerHandler.WSHandler.InjectInto | internal/router/wshandler.go:505-524 | The loop over the allowed tools appends exactly those the job does not list by name. |
| WorkerHandler.WSHandler.DispatchToWorker | internal/router/wshandler.go:488-577 | The whole new state and result of a dispatch: entry dropped if corrupt; context saved; slot taken in both tables if the job has none here and one is free; given back in both if the send fails; `dispatched` published otherwise. |
| WorkerHandler.WSHandler.HandleComplete | internal/router/wshandler.go:782-845 | Frees the slot, acknowledges the entry if the job was in flight here, then parks a continuation or publishes the completion and forgets the context. |
| WorkerHandler.WSHandler.HandleWorkerError | internal/router/wshandler.go:848-885 | Publishes the failure, then frees the slot and acknowledges the entry; an error without job id changes nothing. |
| WorkerHandler.WSHandler.ExpireStaleJobs | internal/router/wshandler.go:588-634 | Exactly the jobs in flight for longer than the timeout are freed, acknowledged and reported as timed out. |
| WorkerHandler.WSHandler.Cleanup | internal/router/wshandler.go:900-931 | Heartbeat, pool entry and connection go; the queue, with what the worker had pending, does not change. |
| WorkerHandler.WSHandler.RetryPending | internal/router/wshandler.go:419-436 | Pending entries are dispatched in order; one that does not fit does not stop the ones behind it. |
| WorkerHandler.WSHandler.NextPending | internal/router/wshandler.go:406-409 | The ten oldest entries pending for this worker, in stream order. |
| WorkerHandler.WSHandler.ReaderTurn | internal/router/wshandler.go:371-475 | One turn of the reader loop: nothing without a free slot; otherwise stale jobs expire, then the oldest ten pending entries are retried, and only if there are none is one new entry read. |
| WorkerHandler.AppendMissing | internal/router/wshandler.go:505-524 | Appends the definitions whose names the list does not have, in order. |
| ReaderLoop.TurnIsPath | internal/router/wshandler.go:371-475 | A turn is a run of the protocol's steps: expiries, then retries of pending entries or one read; it never reads a new entry after finding one pending. |
| ReaderLoop.TurnKeeps | internal/router/wshandler.go:371-475 | A turn keeps the invariant and loses no job. |
| ReaderLoop.ExpireAllIsPath | internal/router/wshandler.go:588-634 | Expiring a list of jobs is a run of expiry steps of this worker. |
| ReaderLoop.RetryAllIsPath | internal/router/wshandler.go:419-436 | Retrying distinct entries pending for this worker is a run of dispatch steps: each is still pending when its turn comes. |
| PoolClass.Pool.Add | pkg/gpu/pool.go:64-90 | Adds an idle worker; refuses a taken id and then changes nothing. |
| PoolClass.Pool.Remove | pkg/gpu/pool.go:93-117 | Removes the worker and reports the jobs that were active on it. |
| PoolClass.Pool.UpdateCapabilities | pkg/gpu/pool.go:133-156 | Sets the slot limit of a known worker if the new one is positive. |
| PoolClass.Pool.AssignJob | pkg/gpu/pool.go:159-174 | Adds the job if the worker exists and has room; otherwise reports failure and changes nothing. |
| PoolClass.Pool.CompleteJob | pkg/gpu/pool.go:177-191 | Removes the job and says whether it was active. |
| PoolClass.WorkerConn.AssignJob | internal/router/wshandler.go:105-118 | Duplicate, full or assigned, decided in that order; only the last changes the table. |
| PoolClass.WorkerConn.CompleteJob | internal/router/wshandler.go:123-131 | Removes the job and returns the entry to acknowledge exactly if it was in flight. |
| PoolClass.WorkerConn.StaleJobs | internal/router/wshandler.go:135-160 | The loop over the table finds exactly the jobs older than the timeout, each once. |
| PoolClass.TokenStreams.Publish | pkg/queue/job_queue.go:290-309 | Appends one event to the job's stream and leaves the others alone. |
| PoolClass.TokenStreams.Read | pkg/queue/job_queue.go:312-347 | Returns the consecutive events after a position, as many as there are up to the count. |
| Redis.JobQueue.Enqueue | pkg/queue/job_queue.go:98-110 | XADD: a fresh, largest id; nothing else changes. |
| Redis.JobQueue.Read | pkg/queue/job_queue.go:115-131 | XREADGROUP: the oldest undelivered entry becomes pending for this consumer; nothing changes if there is none. |
| Redis.JobQueue.PendingFor | pkg/queue/job_queue.go:180-196 | The oldest entries pending for a consumer, up to a count, ascending, with their payloads. |
| Redis.JobQueue.ReadPending | pkg/queue/job_queue.go:180-196 | The same with the reader's count of ten. |
| Redis.JobQueue.Ack | pkg/queue/job_queue.go:135-147 | XACK and XDEL take the entry out of the PEL and the stream. |
| Redis.FirstIds | pkg/queue/sweeper.go:136-150 | The n smallest ids in increasing order, found by a loop. |
| Redis.Heartbeats.LiveWorkerIds | pkg/queue/heartbeat.go:72-94 | The scan lists exactly the workers with a heartbeat, in no particular order. |
| Sweeping.ReclaimEffect | pkg/queue/sweeper.go:136-194 | Handling one dead consumer moves its first page of entries to the target and drops the rest from the PEL; entries and cursor stay. |
| Sweeping.ReclaimKeeps | pkg/queue/sweeper.go:136-194 | It leaves the other consumers' entries, and what the whole sweep keeps, unchanged. |
| Sweeping.SweepEffect | pkg/queue/sweeper.go:59-194 | With somebody alive a sweep leaves nothing pending under a dead consumer, moves nothing between live ones, changes neither entries nor cursor, and keeps the set of pending ids if and only if no dead consumer holds more than 100; with nobody alive it changes nothing. |
| Sweeping.KeptAllIff | pkg/queue/sweeper.go:136-145 | What a sweep keeps is everything pending if and only if every dead consumer fits on one page. |
| Sweeping.ListingOrderIrrelevant | pkg/queue/sweeper.go:59-128 | Sweeps that list consumers and heartbeats in different orders agree on what stays pending. |
| SweeperLoop.Sweeper.ReclaimFromConsumer | pkg/queue/sweeper.go:136-194 | List, claim, delete the consumer, on the shared queue. |
| SweeperLoop.Sweeper.FindDead | pkg/queue/sweeper.go:70-105 | The loop over the consumers finds exactly those with pending entries and no heartbeat, each once. |
| SweeperLoop.Sweeper.Sweep | pkg/queue/sweeper.go:59-128 | The round-robin loop computes a sweep for some listing order. |
| CliTurn.RunSound | internal/cliworker/claude.go:542-797 | For any event sequence in either mode: streamed text is pre ++ post and a prefix of all text, equal to it in live mode or without calls; at most one batch kill, only with the batch closed, nothing pending and the pipe variable given up, never in live mode; and a closed batch's calls stay as they are. |
| CliTurn.RunBooks | internal/cliworker/claude.go:588-661 | An id used at most once keeps its books through any events: uses taken in, places, and announcements sent or still due agree, and builtins come from the model's own uses. |
| CliTurn.RunCalls | internal/cliworker/claude.go:588-613 | The call list is the MCP uses taken in, in order, with the server prefix removed. |
| CliTurn.UseCountsIff | internal/cliworker/claude.go:588-612 | A use is accounted for unless it is a builtin whose id is already pending: then, and only then, the older one is lost. |
| CliTurnTheorems.EveryUseInOnePlace | internal/cliworker/claude.go:551-700 | A tool use whose id occurs once ends in exactly one of MCP calls, completed and pending builtins, and as a builtin keeps its name and arguments; it is announced exactly once if and only if the account was not limited or it is not pending, and otherwise not at all. |
| CliTurnTheorems.LimitedLeavesUnannounced | internal/cliworker/claude.go:676-700 | A builtin that is pending when the account turns out to be limited is never announced: the early return leaves out the loop at the end. |
| CliTurnTheorems.BatchDiscipline | internal/cliworker/claude.go:703-728 | From a closed batch on, no later event changes the calls; at most one kill, nothing pending then or later, never in live mode. |
| CliTurnTheorems.KillsExactlyWhen | internal/cliworker/claude.go:639-728 | An event makes the loop kill the subprocess for a complete batch if and only if, outside live mode with the pipe variable not nil, calls collected and nothing left pending, it is an "allowed" rate-limit event or, after one, the result that clears the last pending builtin. (The cancellation for a limited account is not counted.) |
| CliTurnTheorems.LateCallLeavesProcessRunning | internal/cliworker/claude.go:556-560 | A call that comes after the rate-limit event closes the batch with nothing pending and the pipe variable not nil, but no kill: from there the loop waits for the subprocess to end by itself. |
| CliTurnTheorems.CompletedReportsTurn | internal/cliworker/claude.go:809-903 | For every event sequence and exit: a turn that is not rate limited completes if there are calls, and otherwise if and only if it did not fail without text and has builtins or text that is not the prompt complaint. A completed turn reports all calls, or in live mode none but every call as a resolved builtin, in order, behind the completed ones; the text reported is the text streamed, except that a turn ending in calls reports a prefix of it. |
| CliTurnTheorems.StripUndoesPrefix | internal/cliworker/claude.go:1450-1460 | Stripping undoes the worker's own prefix for every tool name. |
| CliLoop.CliRun.HandleAssistant | internal/cliworker/claude.go:552-618 | The loop over an assistant event's blocks, skipped once the batch is closed. |
| CliLoop.CliRun.OnResult | internal/cliworker/claude.go:624-661 | One tool result: completes a pending builtin and possibly kills, or is captured in live mode, or is ignored. |
| CliLoop.CliRun.HandleUser | internal/cliworker/claude.go:620-661 | The loop over a user event's blocks. |
| CliLoop.CliRun.HandleRateLimit | internal/cliworker/claude.go:663-728 | A limited account ends the loop; otherwise the batch is complete and the subprocess is killed if nothing is pending. |
| CliLoop.CliRun.ReadEvents | internal/cliworker/claude.go:542-797 | The event loop computes the fold of the events. |
| CliLoop.CliRun.AnnouncePending | internal/cliworker/claude.go:803-807 | Each builtin still pending is announced once, whatever order the map yields. |
| CliLoop.CliRun.RunTurn | internal/cliworker/claude.go:513-904 | The whole turn: events, then the announcements of pending builtins unless the account is limited, then the report; each id is announced as often as the specification says. |
| CliLoop.CliRun.ResolveCalls | internal/cliworker/claude.go:853-867 | The loop turns every call, in order, into a resolved builtin. |
| CliLoop.CliRun.Complete | internal/cliworker/claude.go:809-903 | What is reported, from the way the subprocess exited. |
| SessionFile.FileDecodes | internal/cliworker/claude.go:1202-1321 | Reading the entries back gives the history in order, with every call, image and id, each run of tool messages from its one entry, and unknown roles left out. |
| SessionFile.RunsAreMaximal | internal/cliworker/claude.go:1250-1265 | Without unknown roles no two tool-result entries are adjacent: each maximal run is one entry. |
| SessionFile.NameRecoveredIff | internal/cliworker/claude.go:1450-1460 | The event loop recovers a filed tool name if and only if the job offers that tool, or the name does not begin with the MCP prefix, or it has no second separator behind the prefix. |
| SessionBuilder.BuildSession | internal/cliworker/claude.go:1057-1325 | The entries of the retained history, with distinct ids and parent links forming one chain; system prompt, current prompt and images as the source sends them; continuation exactly if only assistant and tool messages, one of them a tool message, follow the last user message. |
| SessionBuilder.WriteEntries | internal/cliworker/claude.go:1202-1321 | The loop over the history writes one entry per message or run of tool messages, each linked to the one before. |
| SessionBuilder.CollectResults | internal/cliworker/claude.go:1250-1265 | The inner loop takes exactly the maximal run of tool messages. |
| SessionBuilder.IsToolChain | internal/cliworker/claude.go:1126-1155 | The loop decides whether the conversation is a tool continuation. |
| SessionBuilder.ChooseHistory | internal/cliworker/claude.go:1106-1187 | Which part of the conversation is retained. |
| SessionBuilder.SplitSystem | internal/cliworker/claude.go:1064-1072 | Separates the conversation from the last system message's text. |
| SessionBuilder.RetainedShape | internal/cliworker/claude.go:1106-1187 | A non-empty retained history is the newest 120 (or all) messages before a cut; outside continuations the cut lies right behind the last assistant turn before the final user message. |
| SessionBuilder.SessionDecodes | internal/cliworker/claude.go:1202-1321 | The written file reads back as the retained history. |
| SessionBuilder.TrimCount | internal/cliworker/claude.go:224-230 | The retry drops something if there are two messages and never everything. |
| SessionBuilder.TrimOldest | internal/cliworker/claude.go:214-232 | All system messages, then the conversation without its oldest part. |
| AnthropicStream.WellBracketedIff | internal/router/anthropichandler.go:538-731 | A completed job's event stream is well bracketed (blocks 0, 1, 2, ..., deltas and stop inside their block) if and only if no reasoning token comes after a text token; a client then holds the thinking, text and tool blocks of the stream. |
| AnthropicStream.TwinsAgreeIff | internal/router/anthropichandler.go:496-878 | With reasoning first, a client reading the stream has the blocking response's blocks, up to its placeholder, if and only if the final report agrees with the tokens on whether there is reasoning and text and on what they are, or only empty text was streamed and nothing reported. |
| AnthropicStream.TwinsAgree | internal/router/anthropichandler.go:496-878 | For non-empty tokens, reasoning first, and a report that repeats or omits their concatenation, client and blocking response have the same blocks, up to the empty placeholder. |
| AnthropicStream.BlockingIs | internal/router/anthropichandler.go:755-878 | The blocking answer's blocks and stop reason, in terms of the tokens and the report. |
| AnthropicStream.ErrorLeavesBlockOpen | internal/router/anthropichandler.go:733-744 | A failed job's stream ends in the error event; its last block is left open if and only if there was any token; the blocking response reports the same failure. |
| AnthropicStream.EndsWithReport | internal/router/anthropichandler.go:633-731 | A completed stream ends with the stop reason and the reported, or else counted, number of text tokens. |
| AnthropicStream.ReadsAreAPrefix | pkg/queue/job_queue.go:312-347 | However a growing token stream is cut into reads, each going on behind the last, the reads together are a prefix of it. |
| AnthropicHandler.StreamResponse.OnEvent | internal/router/anthropichandler.go:560-745 | One event's effect on the writer's variables and output. |
| AnthropicHandler.StreamResponse.WriteCalls | internal/router/anthropichandler.go:664-706 | The loop over the final tool calls. |
| AnthropicHandler.StreamResponse.Serve | internal/router/anthropichandler.go:546-748 | The nested loops over batches compute the fold over the concatenated events. |
| AnthropicHandler.BuildContent | internal/router/anthropichandler.go:817-859 | Builds the blocking response's blocks. |
| AnthropicHandler.BlockingResponse | internal/router/anthropichandler.go:755-892 | The nested loops compute the blocking answer, whatever the batches. |
| XmlRoundTrip.ExtractUndoesPrint | internal/worker/qwen_tool_xml.go:28-129 | Calls printed in the documented form between texts come back with names and trimmed parameters, in order, and the trimmed concatenation of the texts is what is left; names have no blank and no '>', do not complete the closing marker, and, if there are parameters, a function's name has no readable parameter tag. |
| XmlRoundTrip.ClosingNameIsLost | internal/worker/qwen_tool_xml.go:13-57 | A function name that would complete the closing marker ends the block early: the block is unreadable, stays in the text, and the call is lost. |
| XmlRoundTrip.ParamsBackIff | internal/worker/qwen_tool_xml.go:66-81 | For any function name without blanks and '>': the printed parameters come back if and only if there are none, or no parameter tag is readable in the name. |
| XmlRoundTrip.BlocksCutOut | internal/worker/qwen_tool_xml.go:46-102 | For any markers that tell each other apart: every printed block is taken out with its own call, and what stays is the text between. |
| XmlPrinting.ParamsRead | internal/worker/qwen_tool_xml.go:66-81 | All printed parameters are read back in order. |
| XmlPrinting.ContentTagged | internal/worker/qwen_tool_xml.go:66-67 | The first parameter tag in a block's content is the one readable in the function's name, if any, and otherwise the first printed parameter's. |
| XmlRoundTrip.ParamValue | internal/worker/qwen_tool_xml.go:66-81 | The last value printed under a name is the one stored, trimmed, embedded as JSON exactly if it is an object or array. |
| XmlToolCalls.BlockStaysIff | internal/worker/qwen_tool_xml.go:46-57 | A block is left in the text if and only if no function tag with a readable name stands anywhere in it. |
| XmlToolCalls.TaggedIff | internal/worker/qwen_tool_xml.go:17-21 | The leftmost search misses a tag exactly if no position of the text has one. |
| XmlToolCalls.BlocksAreTheText | internal/worker/qwen_tool_xml.go:46-102 | Nothing is lost: kept and removed pieces together are the text. |
| XmlToolCalls.InlineIsTheText | internal/worker/qwen_tool_xml.go:105-126 | The same for the inline form. |
| XmlToolCalls.ReplaceBlocks | internal/worker/qwen_tool_xml.go:46-102 | The replacement loop over the blocks computes the calls and the remaining text. |
| XmlToolCalls.ReplaceInline | internal/worker/qwen_tool_xml.go:105-126 | The replacement loop over the inline form. |
| XmlToolCalls.ExtractXmlToolCalls | internal/worker/qwen_tool_xml.go:39-129 | The whole extraction; text without an opening marker is returned untouched. |
| ThinkSplit.SplitThinkContent | internal/worker/executor.go:640-669 | The loop computes the parts of a chunk and the mode it leaves. |
| ThinkSplit.SplitLoop | internal/worker/executor.go:640-669 | The same for any two tags. |
| ThinkSplit.OnlyTagsAreDropped | internal/worker/executor.go:640-669 | The parts with the consumed tags put back are the chunk. |
| ThinkSplit.CleanCutHarmless | internal/worker/executor.go:388-426 | A cut that is not inside a consumed tag does not change the labelled text, whatever the tags. |
| ThinkSplit.CutHarmlessIff | internal/worker/executor.go:640-669 | For tags that differ in their second character: two chunks give the labelled text of the whole if and only if the cut is not inside a tag that the whole consumes. |
| ThinkSplit.TwoChunksIff | internal/worker/executor.go:388-426 | The same for <think> and </think> and the mode carried between chunks. |
| ThinkSplit.ChunkingIff | internal/worker/executor.go:388-426 | For any number of chunks, the labelled text is that of the whole content if and only if no chunk begins inside a tag that the whole content consumes. |
| ThinkSplit.ChunksPassMore | internal/worker/executor.go:388-426 | However the content is cut, no fewer characters are passed on than for the whole: cutting never makes more tags consumed. |
| StderrCapture.LlamaStderrCapture.Write | internal/worker/llamaproc.go:627-676 | The loop drains complete lines in place; the rest is at most 4096 bytes afterwards. |
| StderrCapture.LlamaStderrCapture.StoreLine | internal/worker/llamaproc.go:649-672 | One line: trimmed, dropped if blank, stored with the oldest going beyond 50, logged if critical. |
| StderrCapture.LlamaStderrCapture.RecentLines | internal/worker/llamaproc.go:680-693 | The last n lines joined with newlines. |
| StderrCapture.DrainIs | internal/worker/llamaproc.go:633-673 | What one write leaves, in closed form. |
| StderrCapture.WriteIdealIff | internal/worker/llamaproc.go:627-676 | One write keeps the capture equal to that of the whole output if and only if it leaves at most 4096 unterminated bytes. |
| StderrCapture.Bounded | internal/worker/llamaproc.go:642-646 | Whatever is written, at most 4096 unterminated bytes and 50 lines are held. |
| StderrCapture.CaptureIsIdeal | internal/worker/llamaproc.go:627-676 | If no write overflows, the capture is the last 50 non-empty trimmed lines, the unterminated tail and all critical lines of everything written, however it was cut. |
| ToolCallDeltas.MergeAllAt | pkg/llamacpp/client.go:324-341 | What merging leaves at each index, in terms of that index's fragments. |
| ToolCallDeltas.ListedIsClosed | pkg/llamacpp/client.go:344-358 | A listed call has its index's fragments' arguments concatenated in arrival order and their last non-empty id, type and name. |
| ToolCallDeltas.EveryIndexListed | pkg/llamacpp/client.go:344-358 | Every fragment's index has a call. |
| ToolCallDeltas.ListedUnique | pkg/llamacpp/client.go:344-358 | A map has one ascending listing. |
| ToolCallDeltas.InterleavingIrrelevant | internal/worker/executor.go:455-480 | Interleavings that keep each index's own order give the same calls. |
| ToolCallDeltas.CallMerger.MergeDelta | pkg/llamacpp/client.go:324-341 | The branch-by-branch in-place merge of one fragment. |
| ToolCallDeltas.CallMerger.SortedToolCalls | pkg/llamacpp/client.go:344-358 | The calls of the map in ascending order of index. |
| ToolCallDeltas.CollectStream | pkg/llamacpp/client.go:278-319 | Text, reasoning, last finish reason and merged calls of the stream; on an error token only its message and the reasoning before it. |
| ToolCallDeltas.ExecuteCalls | internal/worker/executor.go:455-516 | The executor's own merge of the same stream, without calls if it ended in an error. |
| ToolCallDeltas.ImplementationsAgree | internal/worker/executor.go:455-516 | On a stream without error the two implementations report the same calls. |
| ContextTruncation.LastResortContextTruncation | internal/worker/executor.go:147-181 | The in-place loop computes the truncation; its running total is always the byte sum of what is left. |
| ContextTruncation.RemoveInPlace | internal/worker/executor.go:172-178 | Removes one message by moving the ones behind it forward in the same array. |
| ContextTruncation.MsgContentBytes | internal/worker/executor.go:134-140 | The byte count of a message with its calls. |
| ContextTruncation.KeepsLongestSuffix | internal/worker/executor.go:142-181 | The leading system messages and the longest suffix of the rest that fits, or the last message alone; nothing goes that need not. |
| ContextTruncation.FitsIff | internal/worker/executor.go:142-181 | The budget is kept if and only if the system messages and the last message fit by themselves. |
| BashOutput.Payload.ApplyMaxBashPayload | pkg/codingtools/bash.go:187-221 | An oversized payload becomes exactly 102400 bytes: prefixes of the streams and the note, stdout cut only if nothing of stderr is left; a smaller one is unchanged. |
| BashOutput.LongestPrefix | pkg/codingtools/bash.go:237-253 | The binary search loop terminates and computes its recursive form. |
| BashOutput.LocallyLongest | pkg/codingtools/bash.go:237-253 | For any test at all, the prefix found fits unless it is empty, and one byte more does not. |
| BashOutput.Longest | pkg/codingtools/bash.go:237-253 | For a monotone test it is the longest that fits. |
| BashOutput.MarshalBashResultInline | pkg/codingtools/bash.go:223-279 | The inline JSON is at most 1024 bytes for any output, its streams prefixes of the originals. |
| BashOutput.AlwaysFits | pkg/codingtools/bash.go:273-277 | For any bytes and any machine-integer status the two searches end in something that fits, so the minimal message is never needed. |
| BashOutput.KeptIsTight | pkg/codingtools/bash.go:235-272 | For any bytes, one more byte of stderr, or of stdout beside the stderr kept, would not fit. |
| BashOutput.AsciiKeepsLongest | pkg/codingtools/bash.go:232-272 | For ASCII output: all of stdout and the longest stderr prefix that fits beside it, or else no stderr and the longest stdout prefix. |
| BashOutput.SearchCanFallShort | pkg/codingtools/bash.go:237-253 | 1946 bytes of two-byte characters on stderr, beside empty stdout and status 0: the inline result keeps 972 of them although 976 would fit in the 1024 bytes. |
| BashOutput.KeepsNearlyLongest | pkg/codingtools/bash.go:232-272 | For any bytes, each search keeps at most 15 bytes less than the longest prefix that fits. |
| JsonLength.AsciiMonotone | pkg/codingtools/bash.go:239-251 | Longer ASCII prefixes are never shorter when escaped. |
| JsonLength.CutCostsLittle | pkg/codingtools/bash.go:239-251 | For any bytes, cutting a text somewhere makes its escaped form at most 15 bytes longer than the bytes cut off would account for. |
| Redaction.RedactEnvValues | internal/agentworker/worker.go:426-452 | The result of replacing the distinct values of at least three characters, longest first, in some order among equals. |
| Redaction.CollectValues | internal/agentworker/worker.go:433-447 | Collecting and sorting yields each such value once, longest first, whatever order the map yields. |
| Redaction.ReplaceLeavesNone | internal/agentworker/worker.go:448-450 | Replacing a value removes it and brings back no other value that was absent, for every value with no star at its ends and no marker inside. |
| Redaction.NoValueLeft | internal/agentworker/worker.go:426-452 | No value of at least three characters with no star at its ends and no marker inside occurs in the redacted output, for any environment, whatever other values overlap or contain it. |
| Redaction.CanBeLeftIff | internal/agentworker/worker.go:426-452 | A value of at least three characters can be left in some output if and only if it begins or ends with a star or contains the marker, and then it can be left where it is the only value. |
| Redaction.CleanOutputUntouched | internal/agentworker/worker.go:448-450 | Output without any of the values is not changed. |
| Redaction.LongerValueGoesWhole | internal/agentworker/worker.go:423-447 | Longest first, a value that begins with a shorter one goes as a whole; shortest first, its rest would stay. |

## Left out

Parts of the system that are not modelled:

- Handlers are atomic steps, and reading an entry and dispatching it is one step: the race between fetching pending entries and a concurrent completion is not part of this model.
- Redis calls succeed; streams and keys do not expire (no TTL, no stream trimming).
- Wall-clock time: staleness is a test on supplied times, heartbeats are lost by a step. Nothing is said about liveness.
- The reader loop's own tests are left out of the step system's enabling conditions, so its runs include all real ones and more; `WorkerHandler.WSHandler.ReaderTurn` has the tests.
- A pending continuation is a value held in the map; the shared pointer the goroutine of a round holds is its copy at the moment of firing.
- Random ids (jobs, tool jobs, entries, generated call ids) are fresh parameters; the ids of calls extracted from text are left out.
- The thread hash of sticky routing is a parameter, an arbitrary function.
- Tools-worker ids are numbers, ordered as the fixed-length hex strings are.
- JSON encoding and decoding is structural, except for corrupt queue entries, the test for valid JSON (a parameter) and the escaped length in the bash caps. Message contents that are not strings are out.
- Direct tool calls (polling for one result), MCP sessions, agent file transfer, HTTP and WebSocket framing, subprocess and file handling, logging: I/O without algorithmic content.
- Answers to permission requests in the Claude CLI loop, usage and cost counters, the retry loop around a run: they touch none of the state in the theorems.
- Suppressing streamed tokens inside text tool calls, and folding reasoning back in when thinking is suppressed (internal/worker/executor.go:382-452).
- Texts are sequences of characters that count as one byte each, except in the bash caps, which work on bytes: the 4096-byte bound, the truncation budget and the redaction minimum of three do not see the width of other characters.
- Image parsing: images are opaque values.
- Floating point in the truncation budget and in the retry's trim fraction: both are integer parameters.
- The minimal JSON message for bash output: `BashOutput.AlwaysFits` shows that it is never reached.
- Model selection, capability inference, URL rewriting, token counting: easy branch-only code.

Contracts weaker than one might wish:

- RouterSafety.NoJobLost: for runs whose sweeps stay within a page per dead consumer and for entries that parse; `RouterLimits.SweepLosesNothingIff` and `RouterLimits.DispatchLosesJobIff` show what happens otherwise.
- RouterRuns.ExactlyOnePlace: assumes the stated discipline; `RouterLimits.CompleteKeepsPlacesIff`, `RouterLimits.ErrorKeepsPlacesIff` and `RouterDiscipline.SweepKeepsSlotsIff` say exactly when a step outside it breaks the state.
- RouterTools.RunBooks: assumes distinct call ids, no second answer to an answered call, and no result message that names another call than its tool job's own if that leaves the own call with no tool job; `Continuations.ParkExactIff`, `Continuations.RecordExactIff` and `RouterTools.ResultKeepsBooksIff` show that each is needed.
- CliTurnTheorems.EveryUseInOnePlace: speaks of ids used once; `CliTurn.UseCountsIff` says when a repeated id loses a use.
- SessionFile.FileDecodes: recovers what the file keeps; system and unknown roles, images of assistant turns and tool calls of other messages are not written, empty arguments read back as an empty object, and an empty tool result as its placeholder text.
- AnthropicStream.TwinsAgree: blocks and stop reason; the token usage of the two responses is not compared.
- XmlRoundTrip.ExtractUndoesPrint: no name completes the closing marker (`XmlRoundTrip.ClosingNameIsLost` shows what happens to such a function name), a function's name has no readable parameter tag if there are parameters (`XmlRoundTrip.ParamsBackIff`), and the joined text has no inline marker (the extraction would take that form out as well).
- XmlRoundTrip.ParamsBackIff: the print of the first parameter, up to its value, does not complete a closing parameter tag; values never contain one, so this concerns parameter names ending in one without its last character.
- StderrCapture.CaptureIsIdeal: for writes that never leave more than 4096 unterminated bytes; for a single write `StderrCapture.WriteIdealIff` shows the bound to be exact.
- BashOutput.AsciiKeepsLongest: for ASCII output. With other output the escaped length is not monotone and a search can keep less than would fit (`BashOutput.SearchCanFallShort`), but never by more than 15 bytes (`BashOutput.KeepsNearlyLongest`); `BashOutput.KeptIsTight` holds for any bytes.
- Redaction.NoValueLeft: for values with no star at either end and no marker inside; `Redaction.CanBeLeftIff` shows that exactly the others can be left.
