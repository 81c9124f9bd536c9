/**
 The router's job protocol as a step system (internal/router/wshandler.go, toolshandler.go; pkg/gpu/pool.go).
 Each handler is one atomic step. Clocks, send outcomes, fresh ids and listing orders are step parameters. The
 handlers are functions from state to state; the classes of WorkerHandler and ToolsHandler are proved to compute
 them, and the theorems about runs are about sequences of steps.
 */
module Router {
  import opened Prelude
  import opened Protocol
  import opened JobStream
  import opened Continuations
  import ToolRouting
  import Sweeping

  datatype Config = Config(
    maxParallel: int, toolsEnabled: bool, allowedTools: seq<string>, builtinDefs: map<string, ToolDef>,
    hash: string -> nat)

  /** A connected worker: its in-flight jobs with the stream entry of each. */
  datatype Conn = Conn(active: map<JobId, EntryId>, maxSlots: int)

  datatype PoolWorker = PoolWorker(active: set<JobId>, maxSlots: int)

  datatype ToolRef = ToolRef(parent: JobId, callId: CallId)

  datatype State = State(
    stream: Stream,
    heartbeats: set<WorkerId>,
    conns: map<WorkerId, Conn>,
    pool: map<WorkerId, PoolWorker>,
    tokens: map<JobId, seq<TokenEvent>>,
    contexts: map<JobId, JobContext>,
    conts: map<JobId, Continuation>,
    firing: seq<Continuation>,               // continuation rounds started but not yet run
    refs: map<ToolJobId, ToolRef>,
    toolsWorkers: ToolRouting.Advertised)

  const Initial: State :=
    State(Stream(map[], 1, 0, map[]), {}, map[], map[], map[], map[], map[], [], map[], map[])

  // ---------------------------------------------------------------- gpu.Pool

  function PoolAssign(pool: map<WorkerId, PoolWorker>, w: WorkerId, j: JobId): Option<map<WorkerId, PoolWorker>> {
    if w !in pool || |pool[w].active| >= pool[w].maxSlots then None
    else Some(pool[w := pool[w].(active := pool[w].active + {j})])
  }

  function PoolComplete(pool: map<WorkerId, PoolWorker>, w: WorkerId, j: JobId): map<WorkerId, PoolWorker> {
    if w !in pool then pool else pool[w := pool[w].(active := pool[w].active - {j})]
  }

  function PoolUpdate(pool: map<WorkerId, PoolWorker>, w: WorkerId, totalSlots: int): map<WorkerId, PoolWorker> {
    if w in pool && totalSlots > 0 then pool[w := pool[w].(maxSlots := totalSlots)] else pool
  }

  // ---------------------------------------------------------------- token streams

  function Events(tokens: map<JobId, seq<TokenEvent>>, j: JobId): seq<TokenEvent> {
    if j in tokens then tokens[j] else []
  }

  function Publish(tokens: map<JobId, seq<TokenEvent>>, j: JobId, e: TokenEvent): map<JobId, seq<TokenEvent>> {
    tokens[j := Events(tokens, j) + [e]]
  }

  // ---------------------------------------------------------------- dispatch

  function AllowedToolDefs(cfg: Config, names: seq<string>): seq<ToolDef> {
    if names == [] then []
    else (if names[0] in cfg.builtinDefs then [cfg.builtinDefs[names[0]]] else [])
         + AllowedToolDefs(cfg, names[1..])
  }

  function NewDefs(defs: seq<ToolDef>, existing: seq<ToolDef>): seq<ToolDef> {
    if defs == [] then []
    else (if forall t :: t in existing ==> t.name != defs[0].name then [defs[0]] else [])
         + NewDefs(defs[1..], existing)
  }

  /** Add the allowed tools a job does not already list, provided some tools worker is connected. */
  function InjectTools(cfg: Config, s: State, msg: JobMessage): JobMessage {
    if !cfg.toolsEnabled || cfg.allowedTools == [] || s.toolsWorkers == map[] then msg
    else msg.(tools := msg.tools + NewDefs(AllowedToolDefs(cfg, cfg.allowedTools), msg.tools))
  }

  function SaveContext(cfg: Config, s: State, msg: JobMessage): State {
    if !cfg.toolsEnabled || cfg.allowedTools == [] then s
    else s.(contexts := s.contexts[msg.jobId := JobContext(msg.messages, msg.tools, msg.params, msg.referenceId)])
  }

  datatype DispatchResult = DispatchOk | AlreadyAssigned | WorkerFull | DispatchFailed

  function Assign(s: State, w: WorkerId, j: JobId, id: EntryId): State
    requires w in s.conns
  {
    var p := PoolAssign(s.pool, w, j);
    s.(conns := s.conns[w := s.conns[w].(active := s.conns[w].active[j := id])],
       pool := if p.Some? then p.value else s.pool)
  }

  function Unassign(s: State, w: WorkerId, j: JobId): State
    requires w in s.conns
  {
    s.(conns := s.conns[w := s.conns[w].(active := s.conns[w].active - {j})],
       pool := PoolComplete(s.pool, w, j))
  }

  function JobOf(p: Payload): JobId
    requires p.Job?
  {
    if p.msg.jobId == "" then p.jobId else p.msg.jobId
  }

  /** Take a slot for the job, if it has none here and one is free, and send it; give the slot back if that fails. */
  function Occupy(s: State, w: WorkerId, j: JobId, id: EntryId, sendOk: bool): (State, DispatchResult)
    requires w in s.conns
  {
    if j in s.conns[w].active then (s, AlreadyAssigned)
    else if |s.conns[w].active| >= s.conns[w].maxSlots then (s, WorkerFull)
    else if !sendOk then (Unassign(Assign(s, w, j, id), w, j), DispatchFailed)
    else
      var t := Assign(s, w, j, id);
      (t.(tokens := Publish(t.tokens, j, Dispatched)), DispatchOk)
  }

  function Dispatch(cfg: Config, s: State, w: WorkerId, id: EntryId, sendOk: bool): (State, DispatchResult)
    requires w in s.conns && id in s.stream.entries
  {
    match s.stream.entries[id]
    case Corrupt(_) => (s.(stream := Ack(s.stream, id)), DispatchFailed)
    case Job(entryJob, raw) =>
      var j := if raw.jobId == "" then entryJob else raw.jobId;
      Occupy(SaveContext(cfg, s, InjectTools(cfg, s, raw.(jobId := j))), w, j, id, sendOk)
  }

  // ---------------------------------------------------------------- continuations

  /** Store one result; the last one moves the continuation from parked to firing. */
  function RecordToolResult(s: State, parent: JobId, callId: CallId, result: ToolResult): State {
    if parent !in s.conts || callId !in s.conts[parent].results then s
    else
      var c := Record(s.conts[parent], callId, result);
      if c.remaining > 0 then s.(conts := s.conts[parent := c])
      else s.(conts := s.conts - {parent}, firing := s.firing + [c])
  }

  function HandleToolResult(s: State, t: ToolJobId, parent: JobId, callId: CallId, result: ToolResult): State {
    RecordToolResult(s.(refs := s.refs - {t}), parent, callId, result)
  }

  /** An error message counts as the answer to the call its tool job was for; unknown tool jobs are ignored. */
  function HandleToolError(s: State, t: ToolJobId, reason: string): State {
    if t == "" || t !in s.refs then s
    else HandleToolResult(s, t, s.refs[t].parent, s.refs[t].callId, ToolResult("", NoOutput, [], reason))
  }

  const DISPATCH_FAILURE: string := "failed to dispatch to tools worker"

  /** Send the calls one by one; a call that cannot be sent is answered with an error on the spot. */
  function DispatchCalls(s: State, j: JobId, calls: seq<ToolCall>, toolJobs: seq<ToolJobId>, sent: seq<bool>): State
    requires |toolJobs| == |calls| == |sent|
    decreases |calls|
  {
    if calls == [] then s
    else
      var s1 := s.(refs := s.refs[toolJobs[0] := ToolRef(j, calls[0].id)]);
      var s2 := if sent[0] then s1
                else RecordToolResult(s1, j, calls[0].id,
                                      ToolResult(calls[0].name, NoOutput, [], DISPATCH_FAILURE));
      DispatchCalls(s2, j, calls[1..], toolJobs[1..], sent[1..])
  }

  function ToolNames(calls: seq<ToolCall>): set<string> {
    set i | 0 <= i < |calls| && calls[i].name != "" :: calls[i].name
  }

  /** Whether the router runs the tool calls itself: it has the job's context and a suitable tools worker. */
  ghost predicate CanContinue(cfg: Config, s: State, msg: CompleteMessage) {
    && cfg.toolsEnabled && msg.toolCalls != [] && msg.jobId in s.contexts
    && ToolRouting.Pick(s.toolsWorkers, ToolNames(msg.toolCalls), s.contexts[msg.jobId].threadId, cfg.hash).Some?
  }

  function StartContinuation(s: State, msg: CompleteMessage, toolJobs: seq<ToolJobId>, sent: seq<bool>): State
    requires msg.jobId in s.contexts && |toolJobs| == |msg.toolCalls| == |sent|
  {
    var c := Park(s.contexts[msg.jobId], msg);
    DispatchCalls(s.(conts := s.conts[msg.jobId := c]), msg.jobId, msg.toolCalls, toolJobs, sent)
  }

  /** continueLLMRound: save the longer history and enqueue the next round (or report that this failed). */
  function ContinueRound(s: State, i: nat, enqueued: bool): State
    requires i < |s.firing|
  {
    var c := s.firing[i];
    var s1 := s.(firing := RemoveAt(s.firing, i),
                 contexts := s.contexts[c.jobId := c.ctx.(messages := NextMessages(c))]);
    if enqueued then s1.(stream := Enqueue(s1.stream, Job(c.jobId, NextJob(c))))
    else s1.(tokens := Publish(s1.tokens, c.jobId, Failed("continuation_failed")))
  }

  // ---------------------------------------------------------------- worker messages

  /** Free the slot and acknowledge its entry, if the job is in flight on this worker. */
  function Release(s: State, w: WorkerId, j: JobId): State
    requires w in s.conns
  {
    var active := s.conns[w].active;
    Unassign(if j in active then s.(stream := Ack(s.stream, active[j])) else s, w, j)
  }

  ghost function HandleComplete(
      cfg: Config, s: State, w: WorkerId, msg: CompleteMessage, toolJobs: seq<ToolJobId>, sent: seq<bool>): State
    requires w in s.conns && |toolJobs| == |msg.toolCalls| == |sent|
  {
    var s1 := Release(s, w, msg.jobId);
    if CanContinue(cfg, s1, msg) then StartContinuation(s1, msg, toolJobs, sent)
    else
      var s2 := s1.(tokens := Publish(s1.tokens, msg.jobId, Done(msg)));
      if cfg.toolsEnabled then s2.(contexts := s2.contexts - {msg.jobId}) else s2
  }

  function HandleWorkerError(s: State, w: WorkerId, j: JobId, reason: string): State
    requires w in s.conns
  {
    if j == "" then s else Release(s.(tokens := Publish(s.tokens, j, Failed(reason))), w, j)
  }

  function ExpireJob(s: State, w: WorkerId, j: JobId): State
    requires w in s.conns && j in s.conns[w].active
  {
    var s1 := Release(s, w, j);
    s1.(tokens := Publish(s1.tokens, j, Failed("job_timeout")))
  }

  function ConnectWorker(cfg: Config, s: State, w: WorkerId, totalSlots: int): State {
    if w in s.pool then s
    else
      var maxSlots := if totalSlots > 0 then totalSlots else cfg.maxParallel;
      s.(pool := s.pool[w := PoolWorker({}, maxSlots)], conns := s.conns[w := Conn(map[], maxSlots)],
         heartbeats := s.heartbeats + {w})
  }

  function HandleConfig(s: State, w: WorkerId, totalSlots: int): State
    requires w in s.conns
  {
    s.(pool := PoolUpdate(s.pool, w, totalSlots),
       conns := if totalSlots > 0 then s.conns[w := s.conns[w].(maxSlots := totalSlots)] else s.conns)
  }

  /** The connection and its pool entry go away; what the worker had pending stays in the PEL. */
  function Cleanup(s: State, w: WorkerId): State {
    s.(heartbeats := s.heartbeats - {w}, pool := s.pool - {w}, conns := s.conns - {w})
  }

  // ---------------------------------------------------------------- steps

  datatype Step =
    | Submit(msg: JobMessage)
    | Connect(w: WorkerId, totalSlots: int)
    | Reconfigure(w: WorkerId, totalSlots: int)
    | Expire(w: WorkerId, job: JobId)
    | DispatchPending(w: WorkerId, id: EntryId, sendOk: bool)
    | ReadNew(w: WorkerId, id: EntryId, sendOk: bool)
    | EmitToken(w: WorkerId, job: JobId, event: TokenEvent)
    | Complete(w: WorkerId, complete: CompleteMessage, toolJobs: seq<ToolJobId>, sent: seq<bool>)
    | WorkerError(w: WorkerId, job: JobId, reason: string)
    | Disconnect(w: WorkerId)
    | Heartbeat(w: WorkerId)
    | HeartbeatLost(w: WorkerId)
    | SweepDead(dead: seq<WorkerId>, live: seq<WorkerId>)
    | ToolResultMsg(toolJob: ToolJobId, parent: JobId, callId: CallId, result: ToolResult)
    | ToolErrorMsg(toolJob: ToolJobId, reason: string)
    | RunContinuation(index: nat, enqueued: bool)
    | ToolsConnect(tw: ToolRouting.ToolsWorkerId, tools: seq<string>)
    | ToolsDisconnect(tw: ToolRouting.ToolsWorkerId)

  /**
   When a step can happen. The reader loop's own tests (a free slot, nothing pending before reading new entries)
   are left out: slots and pending entries can change between test and read, so these runs include all real ones.
   */
  ghost predicate Enabled(cfg: Config, s: State, step: Step) {
    match step
    case Submit(_) => true
    case Connect(w, _) => w !in s.pool
    case Reconfigure(w, _) => w in s.conns
    case Expire(w, j) => w in s.conns && j in s.conns[w].active
    case DispatchPending(w, id, _) => w in s.conns && id in s.stream.entries && id in Owned(s.stream, w)
    case ReadNew(w, id, _) => w in s.conns && IsNext(s.stream, id)
    case EmitToken(w, _, e) => w in s.conns && !e.Terminal()
    case Complete(w, m, ts, ok) =>
      w in s.conns && |ts| == |m.toolCalls| == |ok| && FreshToolJobs(s, ts)
    case WorkerError(w, _, _) => w in s.conns
    case Disconnect(w) => w in s.conns
    case Heartbeat(w) => true
    case HeartbeatLost(w) => true
    case SweepDead(dead, live) => Sweeping.Listing(s.stream, s.heartbeats, dead, live)
    case ToolResultMsg(_, _, _, _) => true
    case ToolErrorMsg(_, _) => true
    case RunContinuation(i, _) => i < |s.firing|
    case ToolsConnect(tw, _) => tw !in s.toolsWorkers
    case ToolsDisconnect(_) => true
  }

  ghost predicate FreshToolJobs(s: State, ts: seq<ToolJobId>) {
    Distinct(ts) && forall i :: 0 <= i < |ts| ==> ts[i] !in s.refs
  }

  ghost function Next(cfg: Config, s: State, step: Step): State
    requires Enabled(cfg, s, step)
  {
    match step
    case Submit(m) => s.(stream := Enqueue(s.stream, Job(m.jobId, m)))
    case Connect(w, n) => ConnectWorker(cfg, s, w, n)
    case Reconfigure(w, n) => HandleConfig(s, w, n)
    case Expire(w, j) => ExpireJob(s, w, j)
    case DispatchPending(w, id, ok) => Dispatch(cfg, s, w, id, ok).0
    case ReadNew(w, id, ok) => Dispatch(cfg, s.(stream := Deliver(s.stream, w, id)), w, id, ok).0
    case EmitToken(_, j, e) => s.(tokens := Publish(s.tokens, j, e))
    case Complete(w, m, ts, ok) => HandleComplete(cfg, s, w, m, ts, ok)
    case WorkerError(w, j, r) => HandleWorkerError(s, w, j, r)
    case Disconnect(w) => Cleanup(s, w)
    case Heartbeat(w) => s.(heartbeats := s.heartbeats + {w})
    case HeartbeatLost(w) => s.(heartbeats := s.heartbeats - {w})
    case SweepDead(dead, live) => s.(stream := Sweeping.Sweep(s.stream, dead, live))
    case ToolResultMsg(t, parent, callId, r) => HandleToolResult(s, t, parent, callId, r)
    case ToolErrorMsg(t, reason) => HandleToolError(s, t, reason)
    case RunContinuation(i, ok) => ContinueRound(s, i, ok)
    case ToolsConnect(tw, tools) => s.(toolsWorkers := s.toolsWorkers[tw := tools])
    case ToolsDisconnect(tw) => s.(toolsWorkers := s.toolsWorkers - {tw})
  }

  /** A run: states[0] is initial and each step leads from one state to the next. */
  ghost predicate Run(cfg: Config, states: seq<State>, steps: seq<Step>) {
    && |states| == |steps| + 1 && states[0] == Initial
    && forall i :: 0 <= i < |steps| ==> Enabled(cfg, states[i], steps[i]) && states[i + 1] == Next(cfg, states[i], steps[i])
  }

  /** t is reached from s by the given steps, all of them enabled in turn. */
  ghost predicate Path(cfg: Config, s: State, steps: seq<Step>, t: State)
    decreases |steps|
  {
    if steps == [] then s == t
    else Enabled(cfg, s, steps[0]) && Path(cfg, Next(cfg, s, steps[0]), steps[1..], t)
  }

  lemma {:induction false} PathAppend(cfg: Config, s: State, a: seq<Step>, t: State, b: seq<Step>, u: State)
    requires Path(cfg, s, a, t) && Path(cfg, t, b, u)
    ensures Path(cfg, s, a + b, u)
    decreases |a|
  {
    if a == [] {
      assert a + b == b;
    } else {
      PathAppend(cfg, Next(cfg, s, a[0]), a[1..], t, b, u);
      assert (a + b)[1..] == a[1..] + b;
    }
  }

  lemma PathSnoc(cfg: Config, s: State, a: seq<Step>, t: State, step: Step)
    requires Path(cfg, s, a, t) && Enabled(cfg, t, step)
    ensures Path(cfg, s, a + [step], Next(cfg, t, step))
  {
    assert [step][1..] == [];
    assert Path(cfg, t, [step], Next(cfg, t, step));
    PathAppend(cfg, s, a, t, [step], Next(cfg, t, step));
  }
}
