/**
 Nothing is applied that no client asked for: every command on an apply stream was handed to a
 leader by one submission of its own.
 */
module Validity {
  import opened Logs
  import opened Consensus
  import opened Protocol
  import opened Invariants
  import opened Frames
  import opened Safety
  import opened Theorems

  // Step k of the run hands the command of entry e to the leader of e's term, whose log has p
  // entries at that moment.
  ghost predicate SubmitAt(run: Run, k: nat, p: nat, e: LogEntry) {
    && k < |run.steps| && run.steps[k] == ClientSubmit(run.steps[k].s, e.command)
    && Within(run, k, run.steps[k].s)
    && LeadsRound(NodeAt(run, k, run.steps[k].s), e.term) && |NodeAt(run, k, run.steps[k].s).log| == p
  }

  ghost predicate SubmittedBefore(run: Run, i: nat, p: nat, e: LogEntry) {
    exists k: nat :: k < i && SubmitAt(run, k, p, e)
  }

  // Entry p of the log of the leader of term t, if it is of that term.
  ghost predicate OwnEntry(h: History, t: int, p: nat) {
    t in h.leaderLog && p < |h.leaderLog[t]| && h.leaderLog[t][p].term == t
  }

  lemma OtherStepsKeepLeaderLogs(g: Global, step: Step)
    requires Enabled(g, step) && !step.StartLeading? && !step.ClientSubmit?
    ensures Next(g, step).hist.leaderLog == g.hist.leaderLog
  {
    var n, n' := g.nodes[step.s], Next(g, step).nodes[step.s];
    match step
    case Timeout(_) => assert Close(g.hist, n, n').leaderLog == g.hist.leaderLog;
    case ReceiveVoteRequest(s, race, req) =>
      assert HistoryOfVote(g.hist, n, n', req, HandleRequestVote(n, req).1.voteGranted).leaderLog == g.hist.leaderLog;
    case ReceiveAppend(s, req) =>
      assert HistoryOfAppend(g.hist, n, n', req, HandleAppendEntries(n, req).1.success).leaderLog == g.hist.leaderLog;
    case _ =>
  }

  // A new leader has no entry of its own term yet.
  lemma WinAddsNoOwnEntry(h: History, n: Node, t: int, p: nat)
    requires Sorted(n.log, n.currentTerm - 1) && OwnEntry(HistoryOfWin(h, n), t, p)
    ensures OwnEntry(h, t, p)
  {
  }

  // Only a submission adds an entry of its own term to the log of a leader.
  lemma NewEntryIsSubmitted(g: Global, step: Step, t: int, p: nat)
    requires NodesOk(g.hist, g.nodes) && Enabled(g, step) && Guarded(g, step)
    requires OwnEntry(Next(g, step).hist, t, p) && !OwnEntry(g.hist, t, p)
    ensures step.ClientSubmit? && LeadsRound(g.nodes[step.s], t) && |g.nodes[step.s].log| == p
    ensures Next(g, step).hist.leaderLog[t][p].command == step.command
  {
    var n := g.nodes[step.s];
    assert NodeOk(g.hist, step.s, n);
    if step.StartLeading? && n.state == Candidate {
      WinAddsNoOwnEntry(g.hist, n, t, p);
    } else if !step.ClientSubmit? && !step.StartLeading? {
      OtherStepsKeepLeaderLogs(g, step);
    }
  }

  lemma SubmittedEarlier(run: Run, i: nat, j: nat, p: nat, e: LogEntry)
    requires SubmittedBefore(run, i, p, e) && i <= j
    ensures SubmittedBefore(run, j, p, e)
  {
    var k: nat :| k < i && SubmitAt(run, k, p, e);
    assert k < j;
  }

  lemma SubmittedNow(run: Run, i: nat, t: int, p: nat)
    requires run.ValidAndGuarded() && i < |run.steps|
    requires OwnEntry(run.states[i + 1].hist, t, p) && !OwnEntry(run.states[i].hist, t, p)
    ensures SubmitAt(run, i, p, run.states[i + 1].hist.leaderLog[t][p])
  {
    assert run.StepAt(i) && run.GuardedAt(i);
    RunInv(run, i);
    NewEntryIsSubmitted(run.states[i], run.steps[i], t, p);
  }

  lemma {:induction false} LeaderEntriesSubmitted(run: Run, i: nat, t: int, p: nat)
    requires run.ValidAndGuarded() && i < |run.states| && OwnEntry(run.states[i].hist, t, p)
    ensures SubmittedBefore(run, i, p, run.states[i].hist.leaderLog[t][p])
  {
    if i > 0 {
      if OwnEntry(run.states[i - 1].hist, t, p) {
        LeaderEntriesSubmitted(run, i - 1, t, p);
        RunStepPrecedes(run, i - 1);
        SameEntry(run.states[i - 1].hist, run.states[i].hist, t, p);
        SubmittedEarlier(run, i - 1, i, p, run.states[i].hist.leaderLog[t][p]);
      } else {
        SubmittedNow(run, i - 1, t, p);
      }
    }
  }

  lemma SameEntry(h: History, h': History, t: int, p: nat)
    requires OwnEntry(h, t, p) && LogsGrow(h, h')
    ensures OwnEntry(h', t, p) && h'.leaderLog[t][p] == h.leaderLog[t][p]
  {
    assert GrowsInTerm(t, h.leaderLog[t], h'.leaderLog[t]);
  }

  lemma EntryIsOwn(h: History, log: Log, bound: int, p: nat)
    requires LogOk(h, log, bound) && p < |log|
    ensures OwnEntry(h, log[p].term, p) && h.leaderLog[log[p].term][p] == log[p]
  {
    assert Created(h.leaderLog, log, p);
    assert log[..p + 1][p] == h.leaderLog[log[p].term][p];
  }

  // Whatever is at position p of a log, in particular on an apply stream, was submitted to the
  // leader of its term as that leader's entry p.
  lemma EveryEntryWasSubmitted(run: Run, i: nat, s: int, p: nat)
    requires run.ValidAndGuarded() && Within(run, i, s) && p < |NodeAt(run, i, s).log|
    ensures SubmittedBefore(run, i, p, NodeAt(run, i, s).log[p])
  {
    NodeAtOk(run, i, s);
    var n := NodeAt(run, i, s);
    EntryIsOwn(run.states[i].hist, n.log, n.currentTerm, p);
    LeaderEntriesSubmitted(run, i, n.log[p].term, p);
  }

  lemma EveryCommandWasSubmitted(run: Run, i: nat, s: int, p: nat)
    requires run.ValidAndGuarded() && Within(run, i, s) && p < |StreamAt(run, i, s)|
    ensures exists e: LogEntry :: e.command == StreamAt(run, i, s)[p].command && SubmittedBefore(run, i, p, e)
  {
    EmittedIsCommitted(run, i, s, p);
    EveryEntryWasSubmitted(run, i, s, p);
  }

  // A submission of term t makes the leader's log of that term longer.
  lemma SubmitGrows(run: Run, k: nat, p: nat, e: LogEntry)
    requires run.ValidAndGuarded() && SubmitAt(run, k, p, e)
    ensures e.term in run.states[k + 1].hist.leaderLog && |run.states[k + 1].hist.leaderLog[e.term]| == p + 1
  {
    assert run.StepAt(k);
    NodeAtOk(run, k, run.steps[k].s);
  }

  lemma LaterSubmitIsFurther(run: Run, k: nat, l: nat, p: nat, q: nat, e: LogEntry, f: LogEntry)
    requires run.ValidAndGuarded() && SubmitAt(run, k, p, e) && SubmitAt(run, l, q, f) && e.term == f.term && k < l
    ensures p < q
  {
    SubmitGrows(run, k, p, e);
    LeaderLogAt(run, l, run.steps[l].s);
    RunPrecedes(run, k + 1, l);
    assert GrowsInTerm(e.term, run.states[k + 1].hist.leaderLog[e.term], run.states[l].hist.leaderLog[e.term]);
  }

  // No two positions share a submission, and no two submissions of one term share a position.
  lemma OneSubmissionEach(run: Run, k: nat, l: nat, p: nat, q: nat, e: LogEntry, f: LogEntry)
    requires run.ValidAndGuarded() && SubmitAt(run, k, p, e) && SubmitAt(run, l, q, f)
    ensures k == l ==> p == q && e == f
    ensures p == q && e.term == f.term ==> k == l
  {
    if e.term == f.term && k < l {
      LaterSubmitIsFurther(run, k, l, p, q, e, f);
    } else if e.term == f.term && l < k {
      LaterSubmitIsFurther(run, l, k, q, p, f, e);
    }
  }
}
