/** The tools side of the router with its maps updated in place (internal/router/toolshandler.go). */
module ToolsHandler {
  import opened Prelude
  import opened Protocol
  import opened JobStream
  import opened Continuations
  import opened Redis
  import opened PoolClass
  import Router
  import ToolRouting

  class ToolsWSHandler {
    const cfg: Router.Config
    const jobQueue: JobQueue
    const tokenStream: TokenStreams
    var toolsWorkers: ToolRouting.Advertised
    var jobContexts: map<JobId, JobContext>
    var pendingConts: map<JobId, Continuation>
    var toolJobRefs: map<ToolJobId, Router.ToolRef>
    var spawned: seq<Continuation>  // goroutines started for continueLLMRound and not yet run

    constructor (cfg: Router.Config, jobQueue: JobQueue, tokenStream: TokenStreams)
      ensures this.cfg == cfg && this.jobQueue == jobQueue && this.tokenStream == tokenStream
      ensures toolsWorkers == map[] && jobContexts == map[] && pendingConts == map[] && toolJobRefs == map[] && spawned == []
    {
      this.cfg, this.jobQueue, this.tokenStream := cfg, jobQueue, tokenStream;
      toolsWorkers, jobContexts, pendingConts, toolJobRefs, spawned := map[], map[], map[], map[], [];
    }

    /** The router state with this handler's share filled in; `rest` supplies workers, pool and heartbeats. */
    ghost function View(rest: Router.State): Router.State
      reads this, jobQueue, tokenStream
    {
      rest.(stream := jobQueue.stream, tokens := tokenStream.streams, contexts := jobContexts, conts := pendingConts,
            firing := spawned, refs := toolJobRefs, toolsWorkers := toolsWorkers)
    }

    method SaveJobContext(ghost rest: Router.State, msg: JobMessage)
      requires cfg.toolsEnabled
      modifies this
      ensures View(rest) == Router.SaveContext(cfg, old(View(rest)), msg)
    {
      if cfg.allowedTools == [] {
        return;
      }
      jobContexts := jobContexts[msg.jobId := JobContext(msg.messages, msg.tools, msg.params, msg.referenceId)];
    }

    method DeleteJobContext(ghost rest: Router.State, j: JobId)
      modifies this
      ensures View(rest) == old(View(rest)).(contexts := old(jobContexts) - {j})
    {
      jobContexts := jobContexts - {j};
    }

    method AllowedToolDefs() returns (defs: seq<ToolDef>)
      ensures defs == if toolsWorkers == map[] then [] else Router.AllowedToolDefs(cfg, cfg.allowedTools)
    {
      defs := [];
      if cfg.allowedTools == [] || toolsWorkers == map[] {
        return;
      }
      var names := cfg.allowedTools;
      var i := 0;
      assert names[0..] == names;
      while i < |names|
        invariant i <= |names|
        invariant defs + Router.AllowedToolDefs(cfg, names[i..]) == Router.AllowedToolDefs(cfg, names)
      {
        assert names[i..][1..] == names[i + 1..];
        if names[i] in cfg.builtinDefs {
          defs := defs + [cfg.builtinDefs[names[i]]];
        }
        i := i + 1;
      }
    }

    /** Store one tool result and, when it is the last, hand the round over to continueLLMRound. */
    method RecordToolResult(ghost rest: Router.State, parent: JobId, callId: CallId, result: ToolResult)
      modifies this
      ensures View(rest) == Router.RecordToolResult(old(View(rest)), parent, callId, result)
    {
      if parent !in pendingConts {
        return;
      }
      var cont := pendingConts[parent];
      if callId !in cont.results {
        return;
      }
      cont := cont.(results := cont.results[callId := Some(result)]);
      cont := cont.(remaining := cont.remaining - 1);
      if cont.remaining > 0 {
        pendingConts := pendingConts[parent := cont];
        return;
      }
      pendingConts := pendingConts - {parent};
      spawned := spawned + [cont];
    }

    method HandleToolResult(ghost rest: Router.State, t: ToolJobId, parent: JobId, callId: CallId, result: ToolResult)
      modifies this
      ensures View(rest) == Router.HandleToolResult(old(View(rest)), t, parent, callId, result)
    {
      toolJobRefs := toolJobRefs - {t};
      RecordToolResult(rest, parent, callId, result);
    }

    method HandleToolError(ghost rest: Router.State, t: ToolJobId, reason: string)
      modifies this
      ensures View(rest) == Router.HandleToolError(old(View(rest)), t, reason)
    {
      if t == "" || t !in toolJobRefs {
        return;
      }
      var ref := toolJobRefs[t];
      toolJobRefs := toolJobRefs - {t};
      RecordToolResult(rest, ref.parent, ref.callId, ToolResult("", NoOutput, [], reason));
    }

    /**
     Park the job and send its calls to one tools worker. False, with nothing changed, when the router cannot run
     the calls itself. `sent` tells which of the sends succeed.
     */
    method StartContinuation(ghost rest: Router.State, msg: CompleteMessage, toolJobs: seq<ToolJobId>, sent: seq<bool>)
      returns (started: bool)
      requires cfg.toolsEnabled && |toolJobs| == |msg.toolCalls| == |sent|
      modifies this
      ensures started <==> Router.CanContinue(cfg, old(View(rest)), msg)
      ensures View(rest) == if started then Router.StartContinuation(old(View(rest)), msg, toolJobs, sent)
                            else old(View(rest))
    {
      hide Router.RecordToolResult;
      hide ToolRouting.Pick;
      if |msg.toolCalls| == 0 {
        return false;
      }
      if msg.jobId !in jobContexts {
        return false;
      }
      var jobCtx := jobContexts[msg.jobId];
      var worker := ToolRouting.PickToolsWorkerAll(toolsWorkers, Router.ToolNames(msg.toolCalls), jobCtx.threadId, cfg.hash);
      if worker.None? {
        return false;
      }
      var cont := Continuation(
        msg.jobId, jobCtx, ChatMessage(Assistant, Text(msg.fullResponse), msg.toolCalls, ""),
        map id | id in CallIds(msg.toolCalls) :: None, |msg.toolCalls|);
      pendingConts := pendingConts[msg.jobId := cont];
      ghost var parked := View(rest);
      var i := 0;
      assert msg.toolCalls[0..] == msg.toolCalls && toolJobs[0..] == toolJobs && sent[0..] == sent;
      while i < |msg.toolCalls|
        invariant i <= |msg.toolCalls| && jobQueue.stream == old(jobQueue.stream)
        invariant Router.DispatchCalls(View(rest), msg.jobId, msg.toolCalls[i..], toolJobs[i..], sent[i..])
                  == Router.DispatchCalls(parked, msg.jobId, msg.toolCalls, toolJobs, sent)
      {
        var tc := msg.toolCalls[i];
        assert msg.toolCalls[i..][1..] == msg.toolCalls[i + 1..];
        assert toolJobs[i..][1..] == toolJobs[i + 1..] && sent[i..][1..] == sent[i + 1..];
        toolJobRefs := toolJobRefs[toolJobs[i] := Router.ToolRef(msg.jobId, tc.id)];
        if !sent[i] {
          RecordToolResult(rest, msg.jobId, tc.id, ToolResult(tc.name, NoOutput, [], Router.DISPATCH_FAILURE));
        }
        i := i + 1;
      }
      started := true;
    }

    /** Run one started continuation: rebuild the history, save it, enqueue the next round. */
    method ContinueLLMRound(ghost rest: Router.State, index: nat, enqueued: bool)
      requires jobQueue.Valid() && index < |spawned|
      modifies this, jobQueue, tokenStream
      ensures jobQueue.Valid()
      ensures View(rest) == Router.ContinueRound(old(View(rest)), index, enqueued)
    {
      var cont := spawned[index];
      spawned := RemoveAt(spawned, index);
      var messages := cont.ctx.messages;
      messages := messages + [cont.assistant];
      var calls := cont.assistant.toolCalls;
      var i := 0;
      while i < |calls|
        invariant i <= |calls|
        invariant messages == cont.ctx.messages + [cont.assistant] + ToolMessages(cont, calls)[..i]
      {
        var tc := calls[i];
        if tc.id !in cont.results || cont.results[tc.id].None? {
          messages := messages + [ChatMessage(Tool, ErrorObject("tool result missing"), [], tc.id)];
        } else {
          messages := messages + [ChatMessage(Tool, ResultContent(cont.results[tc.id].value), [], tc.id)];
        }
        i := i + 1;
      }
      assert messages == NextMessages(cont);
      var nextJob := JobMessage(cont.jobId, messages, cont.ctx.tools, cont.ctx.params, "");
      jobContexts := jobContexts[cont.jobId := cont.ctx.(messages := messages)];
      if enqueued {
        var _ := jobQueue.Enqueue(Job(nextJob.jobId, nextJob));
      } else {
        tokenStream.Publish(cont.jobId, Failed("continuation_failed"));
      }
    }
  }
}
