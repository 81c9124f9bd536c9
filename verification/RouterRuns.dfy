/** What holds in every state of a disciplined run: one place per job, and the history it carries. */
module RouterRuns {
  import opened Protocol
  import opened JobStream
  import opened Router
  import opened RouterBasics
  import opened RouterPlaces
  import opened RouterDiscipline

  ghost function HistoryAt(states: seq<State>, steps: seq<Step>, k: nat): History
    requires k <= |steps| < |states|
  {
    if k == 0 then NoHistory else Remember(states[k - 1], steps[k - 1], HistoryAt(states, steps, k - 1))
  }

  ghost predicate DisciplinedRun(cfg: Config, states: seq<State>, steps: seq<Step>) {
    && Run(cfg, states, steps)
    && forall i :: 0 <= i < |steps| ==> Disciplined(states[i], HistoryAt(states, steps, i), steps[i])
  }

  lemma InitialSettled()
    ensures Settled(Initial, NoHistory)
  {
  }

  lemma {:induction false} RunSettles(cfg: Config, states: seq<State>, steps: seq<Step>, k: nat)
    requires DisciplinedRun(cfg, states, steps) && k < |states|
    ensures Settled(states[k], HistoryAt(states, steps, k))
  {
    hide Settled;
    hide Disciplined;
    hide Remember;
    hide Next;
    hide Enabled;
    if k == 0 {
      InitialSettled();
    } else {
      RunSettles(cfg, states, steps, k - 1);
      StepSettles(cfg, states[k - 1], HistoryAt(states, steps, k - 1), steps[k - 1]);
    }
  }

  lemma {:induction false} SubmittedStays(states: seq<State>, steps: seq<Step>, k: nat, j: JobId)
    requires k <= |steps| < |states|
    ensures j in HistoryAt(states, steps, k).orig <==> exists i :: 0 <= i < k && steps[i].Submit? && steps[i].msg.jobId == j
  {
    if k > 0 {
      SubmittedStays(states, steps, k - 1, j);
    }
  }

  /**
   In a disciplined run a job that was submitted is in exactly one place (queue, parked, firing, finished), one
   that was not is nowhere, and nobody gets two terminal events.
   */
  lemma ExactlyOnePlace(cfg: Config, states: seq<State>, steps: seq<Step>, k: nat, j: JobId)
    requires DisciplinedRun(cfg, states, steps) && k < |states|
    ensures AtMostOnePlace(states[k], j)
    ensures Somewhere(states[k], j) <==> exists i :: 0 <= i < k && steps[i].Submit? && steps[i].msg.jobId == j
    ensures Terminals(Events(states[k].tokens, j)) <= 1
  {
    RunSettles(cfg, states, steps, k);
    SubmittedStays(states, steps, k, j);
  }

  /** In a disciplined run an occupied slot's entry is in the queue, is the slot's job, and is pending for that worker. */
  lemma SlotsBackedByQueue(cfg: Config, states: seq<State>, steps: seq<Step>, k: nat, w: WorkerId, j: JobId)
    requires DisciplinedRun(cfg, states, steps) && k < |states|
    requires w in states[k].conns && j in states[k].conns[w].active
    ensures var s, id := states[k], states[k].conns[w].active[j];
            && id in s.stream.entries && EntryJob(s.stream.entries[id]) == j
            && id in s.stream.pel && s.stream.pel[id] == w
            && (forall v :: v in s.conns && j in s.conns[v].active ==> v == w)
  {
    RunSettles(cfg, states, steps, k);
    var s, id := states[k], states[k].conns[w].active[j];
    forall v | v in s.conns && j in s.conns[v].active ensures v == w {
      var id' := s.conns[v].active[j];
      assert EntryJob(s.stream.entries[id']) == j;
    }
  }

  /**
   Every queued round of a job carries the submitted messages followed, for each earlier round, by the assistant
   turn and one tool message per call, in call order and with matching ids.
   */
  lemma QueuedHistory(cfg: Config, states: seq<State>, steps: seq<Step>, k: nat, id: EntryId)
    requires DisciplinedRun(cfg, states, steps) && k < |states| && id in states[k].stream.entries
    ensures var p, h := states[k].stream.entries[id], HistoryAt(states, steps, k);
            && p.Job? && p.msg.jobId in h.orig
            && p.msg.messages == Transcript(h.orig[p.msg.jobId], RoundsOf(h, p.msg.jobId))
            && (forall i :: 0 <= i < |RoundsOf(h, p.msg.jobId)| ==> AnswersItsCalls(RoundsOf(h, p.msg.jobId)[i]))
  {
    RunSettles(cfg, states, steps, k);
    var p, h := states[k].stream.entries[id], HistoryAt(states, steps, k);
    assert Carries(h, EntryJob(p), p.msg.messages);
  }
}
