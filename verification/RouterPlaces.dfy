/**
 One place per job. When workers finish only jobs that are still in flight on them and only disconnected workers
 lose their heartbeat, every accepted job is at any time in exactly one place, with exactly the history that was
 built up for it, and never gets a second terminal event.
 */
module RouterPlaces {
  import opened Protocol
  import opened JobStream
  import opened Continuations
  import opened Router
  import opened RouterBasics
  import opened RouterSafety

  // ---------------------------------------------------------------- histories

  /** A finished tool round: the assistant turn that asked, and the tool messages that answered. */
  datatype Round = Round(assistant: ChatMessage, answers: seq<ChatMessage>)

  /** What was submitted for each job, and the tool rounds it went through since. */
  datatype History = History(orig: map<JobId, seq<ChatMessage>>, rounds: map<JobId, seq<Round>>)

  const NoHistory: History := History(map[], map[])

  function Transcript(orig: seq<ChatMessage>, rounds: seq<Round>): seq<ChatMessage> {
    if rounds == [] then orig
    else
      var last := rounds[|rounds| - 1];
      Transcript(orig, rounds[..|rounds| - 1]) + [last.assistant] + last.answers
  }

  function RoundsOf(h: History, j: JobId): seq<Round> {
    if j in h.rounds then h.rounds[j] else []
  }

  function Sent(h: History, j: JobId): seq<ChatMessage>
    requires j in h.orig
  {
    Transcript(h.orig[j], RoundsOf(h, j))
  }

  function RoundOf(c: Continuation): Round {
    Round(c.assistant, ToolMessages(c, c.assistant.toolCalls))
  }

  function Remember(s: State, step: Step, h: History): History {
    if step.Submit? then h.(orig := h.orig[step.msg.jobId := step.msg.messages], rounds := h.rounds - {step.msg.jobId})
    else if step.RunContinuation? && step.index < |s.firing| then
      var c := s.firing[step.index];
      h.(rounds := h.rounds[c.jobId := RoundsOf(h, c.jobId) + [RoundOf(c)]])
    else h
  }

  /** One tool message per call, in call order, each with its call's id. */
  ghost predicate AnswersItsCalls(r: Round) {
    && r.assistant.role == Assistant && |r.answers| == |r.assistant.toolCalls|
    && forall i :: 0 <= i < |r.answers| ==> r.answers[i].role == Tool && r.answers[i].toolCallId == r.assistant.toolCalls[i].id
  }

  // ---------------------------------------------------------------- places

  ghost predicate InQueue(s: State, j: JobId) {
    exists id :: id in s.stream.entries && EntryJob(s.stream.entries[id]) == j
  }

  ghost predicate Somewhere(s: State, j: JobId) {
    InQueue(s, j) || j in s.conts || Firing(s, j) || Finished(s, j)
  }

  ghost predicate AtMostOnePlace(s: State, j: JobId) {
    && !(InQueue(s, j) && j in s.conts) && !(InQueue(s, j) && Firing(s, j)) && !(InQueue(s, j) && Finished(s, j))
    && !(j in s.conts && Firing(s, j)) && !(j in s.conts && Finished(s, j)) && !(Firing(s, j) && Finished(s, j))
  }

  function Terminals(es: seq<TokenEvent>): nat {
    if es == [] then 0
    else Terminals(es[..|es| - 1]) + if es[|es| - 1].Terminal() then 1 else 0
  }

  lemma {:induction false} TerminalsCount(es: seq<TokenEvent>)
    ensures Terminals(es) > 0 <==> exists e :: e in es && e.Terminal()
  {
    if es != [] {
      var front, last := es[..|es| - 1], es[|es| - 1];
      TerminalsCount(front);
      assert es == front + [last];
      if e :| e in es && e.Terminal() {
        assert e in front || e == last;
      }
      assert last in es;
    }
  }

  /** Distinct entries belong to distinct jobs, and every entry is live. */
  ghost predicate QueueUnique(s: State) {
    && (forall a, b :: a in s.stream.entries && b in s.stream.entries && a != b ==>
          EntryJob(s.stream.entries[a]) != EntryJob(s.stream.entries[b]))
    && (forall id :: id in s.stream.entries ==> Live(s.stream, id))
  }

  /** Every occupied slot's entry is pending for that very worker. */
  ghost predicate SlotsHeld(s: State) {
    forall w, j :: w in s.conns && j in s.conns[w].active ==>
      var id := s.conns[w].active[j];
      id in s.stream.entries && id in s.stream.pel && s.stream.pel[id] == w
  }

  ghost predicate FiringDistinct(s: State) {
    forall i, k :: 0 <= i < k < |s.firing| ==> s.firing[i].jobId != s.firing[k].jobId
  }

  ghost predicate OnePlaceEach(s: State, h: History) {
    && (forall j :: AtMostOnePlace(s, j))
    && (forall j :: Somewhere(s, j) <==> j in h.orig)
    && (forall j :: Terminals(Events(s.tokens, j)) <= 1)
  }

  ghost predicate Carries(h: History, j: JobId, messages: seq<ChatMessage>) {
    j in h.orig && messages == Sent(h, j)
  }

  ghost predicate ContCarries(h: History, c: Continuation) {
    Carries(h, c.jobId, c.ctx.messages) && c.assistant.role == Assistant
  }

  ghost predicate QueueCarries(entries: map<EntryId, Payload>, h: History) {
    forall id :: id in entries && entries[id].Job? ==> Carries(h, EntryJob(entries[id]), entries[id].msg.messages)
  }

  ghost predicate ContextsCarry(contexts: map<JobId, JobContext>, h: History) {
    forall j :: j in contexts ==> Carries(h, j, contexts[j].messages)
  }

  ghost predicate ContsCarry(conts: map<JobId, Continuation>, h: History) {
    forall j :: j in conts ==> ContCarries(h, conts[j])
  }

  ghost predicate FiringCarries(firing: seq<Continuation>, h: History) {
    forall i :: 0 <= i < |firing| ==> ContCarries(h, firing[i])
  }

  ghost predicate RoundsAnswered(h: History) {
    forall j, i :: j in h.rounds && 0 <= i < |h.rounds[j]| ==> AnswersItsCalls(h.rounds[j][i])
  }

  /** Wherever a job is, it carries exactly the transcript of its rounds so far. */
  ghost predicate HistoryAgrees(s: State, h: History) {
    && QueueCarries(s.stream.entries, h) && ContextsCarry(s.contexts, h)
    && ContsCarry(s.conts, h) && FiringCarries(s.firing, h) && RoundsAnswered(h)
  }

  ghost predicate Settled(s: State, h: History) {
    && Base(s) && QueueUnique(s) && SlotsHeld(s) && FiringDistinct(s)
    && s.conns.Keys <= s.heartbeats
    && OnePlaceEach(s, h) && HistoryAgrees(s, h)
  }

  /** What the environment must respect for the one-place property. */
  ghost predicate Disciplined(s: State, h: History, step: Step) {
    && SweepInBounds(s, step)
    && match step
       case Submit(m) => m.jobId !in h.orig
       case Complete(w, m, _, _) => w in s.conns && m.jobId in s.conns[w].active
       case WorkerError(w, j, _) => j == "" || (w in s.conns && j in s.conns[w].active)
       case HeartbeatLost(w) => w !in s.conns
       case _ => true
  }

  ghost predicate SamePlaces(s: State, t: State, j: JobId) {
    && (InQueue(s, j) <==> InQueue(t, j)) && (j in s.conts <==> j in t.conts)
    && (Firing(s, j) <==> Firing(t, j)) && (Finished(s, j) <==> Finished(t, j))
  }

  // ---------------------------------------------------------------- building blocks

  lemma PublishPlaces(s: State, j: JobId, e: TokenEvent)
    ensures var t := s.(tokens := Publish(s.tokens, j, e));
            && (forall k :: k != j || !e.Terminal() ==> SamePlaces(s, t, k))
            && (forall k :: k != j ==> Terminals(Events(t.tokens, k)) == Terminals(Events(s.tokens, k)))
            && Terminals(Events(t.tokens, j)) == Terminals(Events(s.tokens, j)) + (if e.Terminal() then 1 else 0)
            && (e.Terminal() ==> Finished(t, j))
            && (InQueue(s, j) <==> InQueue(t, j)) && (Firing(s, j) <==> Firing(t, j))
  {
    var t := s.(tokens := Publish(s.tokens, j, e));
    assert Events(t.tokens, j) == Events(s.tokens, j) + [e];
    assert Events(t.tokens, j)[..|Events(s.tokens, j)|] == Events(s.tokens, j);
    assert e in Events(t.tokens, j);
    forall k ensures k != j ==> Events(t.tokens, k) == Events(s.tokens, k) {}
    if !e.Terminal() {
      assert Finished(s, j) <==> Finished(t, j) by {
        if Finished(s, j) {
          var x :| x in Events(s.tokens, j) && x.Terminal();
          assert x in Events(t.tokens, j);
        }
      }
    }
    assert forall k :: InQueue(s, k) <==> InQueue(t, k);
    assert forall k :: Firing(s, k) <==> Firing(t, k);
  }

  /** Acknowledging the one entry of job j takes j out of the queue and nothing else. */
  lemma AckPlaces(s: State, t: State, id: EntryId)
    requires QueueUnique(s) && id in s.stream.entries
    requires t.stream == Ack(s.stream, id) && t.firing == s.firing && t.conts == s.conts && t.tokens == s.tokens
    ensures QueueUnique(t)
    ensures !InQueue(t, EntryJob(s.stream.entries[id]))
    ensures forall k :: k != EntryJob(s.stream.entries[id]) ==> (InQueue(s, k) <==> InQueue(t, k))
    ensures forall k :: (Firing(s, k) <==> Firing(t, k)) && (Finished(s, k) <==> Finished(t, k))
  {
    forall k | k != EntryJob(s.stream.entries[id]) && InQueue(s, k) ensures InQueue(t, k) {
      var x :| x in s.stream.entries && EntryJob(s.stream.entries[x]) == k;
      assert x in t.stream.entries;
    }
    forall k ensures Firing(s, k) <==> Firing(t, k) {}
  }

  lemma ReleaseSlots(s: State, w: WorkerId, j: JobId)
    requires SlotsHeld(s) && SlotsPointHome(s) && w in s.conns && j in s.conns[w].active
    ensures SlotsHeld(Release(s, w, j))
  {
    var t := Release(s, w, j);
    ReleaseShape(s, w, j);
    var id := s.conns[w].active[j];
    forall v, k | v in t.conns && k in t.conns[v].active
      ensures var x := t.conns[v].active[k]; x in t.stream.entries && x in t.stream.pel && t.stream.pel[x] == v
    {
      assert v in s.conns && k in s.conns[v].active && t.conns[v].active[k] == s.conns[v].active[k];
    }
  }

  /** A job released from its slot is nowhere; every other job stays where it was. */
  lemma ReleasePlaces(s: State, h: History, w: WorkerId, j: JobId)
    requires QueueUnique(s) && SlotsHeld(s) && SlotsPointHome(s) && OnePlaceEach(s, h)
    requires w in s.conns && j in s.conns[w].active
    ensures var t := Release(s, w, j);
            && (forall k :: k != j ==> SamePlaces(s, t, k)) && !Somewhere(t, j) && j in h.orig
            && QueueUnique(t) && SlotsHeld(t)
  {
    var t := Release(s, w, j);
    var id := s.conns[w].active[j];
    ReleaseShape(s, w, j);
    ReleaseSlots(s, w, j);
    AckPlaces(s, t, id);
    assert InQueue(s, j) && AtMostOnePlace(s, j) && Somewhere(s, j);
  }

  lemma ReleaseHistory(s: State, h: History, w: WorkerId, j: JobId)
    requires HistoryAgrees(s, h) && w in s.conns && j in s.conns[w].active
    ensures HistoryAgrees(Release(s, w, j), h)
  {
    ReleaseShape(s, w, j);
  }
}
