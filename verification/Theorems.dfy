/**
 The safety properties of the consensus module, for every guarded run, any two moments of it
 and any number of servers.
 */
module Theorems {
  import opened Logs
  import opened Consensus
  import opened Protocol
  import opened Invariants
  import opened Completeness
  import opened Frames
  import opened Replication
  import opened Safety

  ghost predicate Within(run: Run, i: nat, s: int) {
    i < |run.states| && s in run.states[i].nodes && s in run.states[i].apps
  }

  function NodeAt(run: Run, i: nat, s: int): Node
    requires i < |run.states| && s in run.states[i].nodes
  {
    run.states[i].nodes[s]
  }

  function StreamAt(run: Run, i: nat, s: int): seq<CommitEntry>
    requires i < |run.states| && s in run.states[i].apps
  {
    run.states[i].apps[s].emitted
  }

  lemma NodeAtOk(run: Run, i: nat, s: int)
    requires run.ValidAndGuarded() && Within(run, i, s)
    ensures HistOk(run.states[i].hist) && NodeOk(run.states[i].hist, s, NodeAt(run, i, s))
    ensures StreamOk(NodeAt(run, i, s), run.states[i].apps[s])
  {
    RunInv(run, i);
    ServerOk(run.states[i], s);
  }

  // The history at moment i, within the history at the later of two moments.
  lemma HistoriesMeet(run: Run, i: nat, j: nat) returns (m: nat)
    requires run.ValidAndGuarded() && i < |run.states| && j < |run.states|
    ensures i <= m < |run.states| && j <= m
    ensures HistoryGrows(run.states[i].hist, run.states[m].hist)
    ensures HistoryGrows(run.states[j].hist, run.states[m].hist)
    ensures HistOk(run.states[m].hist)
  {
    m := if i <= j then j else i;
    RunPrecedes(run, i, m);
    RunPrecedes(run, j, m);
    RunInv(run, m);
  }

  // ---------- elections ----------

  // No term ever has two leaders.
  lemma ElectionSafety(run: Run, i: nat, j: nat, s: int, t: int)
    requires run.ValidAndGuarded() && Within(run, i, s) && Within(run, j, t)
    requires NodeAt(run, i, s).state == Leader && NodeAt(run, j, t).state == Leader
    requires NodeAt(run, i, s).currentTerm == NodeAt(run, j, t).currentTerm
    ensures s == t
  {
    NodeAtOk(run, i, s);
    NodeAtOk(run, j, t);
    var m := HistoriesMeet(run, i, j);
  }

  // A leader never steps down because of a request of its own term.
  lemma LeaderKeepsItsTerm(run: Run, i: nat, s: int, req: AppendEntriesRequest)
    requires run.ValidAndGuarded() && Within(run, i, s) && AppendCall(s, req) in run.states[i].net
    requires req.term == NodeAt(run, i, s).currentTerm
    ensures NodeAt(run, i, s).state != Leader
  {
    NodeAtOk(run, i, s);
    RunInv(run, i);
    CallsOk(run.states[i], AppendCall(s, req));
  }

  // ---------- logs ----------

  // Logs of any two servers at any two moments that agree on the term at an index agree on
  // everything up to that index.
  lemma LogMatchingInRun(run: Run, i: nat, j: nat, s: int, t: int)
    requires run.ValidAndGuarded() && Within(run, i, s) && Within(run, j, t)
    ensures LogMatching(NodeAt(run, i, s).log, NodeAt(run, j, t).log)
  {
    NodeAtOk(run, i, s);
    NodeAtOk(run, j, t);
    var m := HistoriesMeet(run, i, j);
    var a, b, h := NodeAt(run, i, s), NodeAt(run, j, t), run.states[m].hist;
    LogFrame(run.states[i].hist, h, a.log, a.currentTerm);
    LogFrame(run.states[j].hist, h, b.log, b.currentTerm);
    CanonicalLogsMatch(h, a.log, b.log);
  }

  lemma CarriedLogOk(h: History, h': History, req: AppendEntriesRequest)
    requires LeaderLogsOk(h) && LogsGrow(h, h') && AppendReqOk(h, req)
    ensures LogOk(h', Carried(h, req), req.term)
  {
    assert LogOk(h, h.leaderLog[req.term], req.term);
    PrefixOk(h, Carried(h, req), h.leaderLog[req.term], req.term);
    LogFrame(h, h', Carried(h, req), req.term);
  }

  lemma RequestOk(run: Run, j: nat, dst: int, req: AppendEntriesRequest)
    requires run.ValidAndGuarded() && j < |run.states| && AppendCall(dst, req) in run.states[j].net
    ensures LeaderLogsOk(run.states[j].hist) && AppendReqOk(run.states[j].hist, req) && req.leaderId != dst
  {
    RunInv(run, j);
    CallsOk(run.states[j], AppendCall(dst, req));
  }

  lemma CarriedMatches(run: Run, i: nat, j: nat, s: int, dst: int, req: AppendEntriesRequest)
    requires run.ValidAndGuarded() && Within(run, i, s)
    requires j < |run.states| && AppendCall(dst, req) in run.states[j].net
    ensures AppendReqOk(run.states[j].hist, req)
    ensures LogMatching(NodeAt(run, i, s).log, Carried(run.states[j].hist, req))
  {
    NodeAtOk(run, i, s);
    RequestOk(run, j, dst, req);
    var m := HistoriesMeet(run, i, j);
    var n, h := NodeAt(run, i, s), run.states[m].hist;
    LogFrame(run.states[i].hist, h, n.log, n.currentTerm);
    CarriedLogOk(run.states[j].hist, h, req);
    CanonicalLogsMatch(h, n.log, Carried(run.states[j].hist, req));
  }

  // The same between a log and a request in flight.
  lemma RequestMatchesLogs(run: Run, i: nat, j: nat, s: int, dst: int, req: AppendEntriesRequest, k: nat)
    requires run.ValidAndGuarded() && Within(run, i, s)
    requires j < |run.states| && AppendCall(dst, req) in run.states[j].net
    requires k < |req.entries| && 0 <= req.prevLogIndex + 1 + k < |NodeAt(run, i, s).log|
    requires NodeAt(run, i, s).log[req.prevLogIndex + 1 + k].term == req.entries[k].term
    ensures var log := NodeAt(run, i, s).log;
            && 0 <= req.prevLogIndex + 1
            && log[req.prevLogIndex + 1..req.prevLogIndex + 1 + k + 1] == req.entries[..k + 1]
            && (req.prevLogIndex >= 0 ==> log[req.prevLogIndex].term == req.prevLogTerm)
  {
    CarriedMatches(run, i, j, s, dst, req);
    RequestMatches(NodeAt(run, i, s).log, Carried(run.states[j].hist, req), req, k);
  }

  lemma RequestMatches(log: Log, carried: Log, req: AppendEntriesRequest, k: nat)
    requires LogMatching(log, carried) && RequestOf(carried, req)
    requires k < |req.entries| && req.prevLogIndex + 1 + k < |log|
    requires log[req.prevLogIndex + 1 + k].term == req.entries[k].term
    ensures log[req.prevLogIndex + 1..req.prevLogIndex + 1 + k + 1] == req.entries[..k + 1]
    ensures req.prevLogIndex >= 0 ==> log[req.prevLogIndex].term == req.prevLogTerm
  {
    var at := req.prevLogIndex + 1;
    assert log[at + k].term == carried[at + k].term;
    assert log[..at + k + 1] == carried[..at + k + 1];
    forall i | 0 <= i <= k ensures log[at + i] == req.entries[i] {
      assert log[..at + k + 1][at + i] == carried[..at + k + 1][at + i];
    }
    if at > 0 {
      assert log[..at + k + 1][at - 1] == carried[..at + k + 1][at - 1];
    }
  }

  // ---------- commitment ----------

  lemma CommittedLater(h: History, h': History, n: Node)
    requires HistoryGrows(h, h') && CommitOk(h, n)
    ensures CommittedPrefix(h', n.log[..n.commitIndex + 1], n.currentTerm)
  {
    CommittedPrefixFrame(h, h', n.log[..n.commitIndex + 1], n.currentTerm, n.currentTerm);
  }

  lemma CommitAt(run: Run, i: nat, s: int)
    requires run.ValidAndGuarded() && Within(run, i, s)
    ensures CommitOk(run.states[i].hist, NodeAt(run, i, s))
  {
    NodeAtOk(run, i, s);
  }

  // What a server counts as committed is in the log of every leader of every later term, whichever
  // of the two moments comes first.
  lemma LeaderCompletenessInRun(run: Run, i: nat, j: nat, s: int, t: int)
    requires run.ValidAndGuarded() && Within(run, i, s) && Within(run, j, t)
    requires NodeAt(run, j, t).state == Leader
    requires NodeAt(run, i, s).currentTerm < NodeAt(run, j, t).currentTerm
    ensures 0 <= NodeAt(run, i, s).commitIndex + 1 <= |NodeAt(run, i, s).log|
    ensures NodeAt(run, i, s).log[..NodeAt(run, i, s).commitIndex + 1] <= NodeAt(run, j, t).log
  {
    CommitAt(run, i, s);
    var n := NodeAt(run, i, s);
    CommittedReachesLaterLeader(run, i, j, t, n.log[..n.commitIndex + 1], n.currentTerm);
  }

  // A committed prefix is in the log of every leader of a later term, at any moment.
  lemma CommittedReachesLaterLeader(run: Run, i: nat, j: nat, l: int, prefix: Log, term: int)
    requires run.ValidAndGuarded() && i < |run.states| && CommittedPrefix(run.states[i].hist, prefix, term)
    requires Within(run, j, l) && NodeAt(run, j, l).state == Leader && NodeAt(run, j, l).currentTerm > term
    ensures prefix <= NodeAt(run, j, l).log
  {
    var m := HistoriesMeet(run, i, j);
    CommittedPrefixFrame(run.states[i].hist, run.states[m].hist, prefix, term, term);
    ElectedLog(run, j, l);
    ElectedWith(run.states[m].hist, prefix, term, NodeAt(run, j, l).currentTerm);
  }

  // A prefix committed in the term of a leader is in its log from then on.
  lemma CommittedReachesPresentLeader(run: Run, i: nat, j: nat, l: int, prefix: Log)
    requires run.ValidAndGuarded() && i <= j && Within(run, j, l) && NodeAt(run, j, l).state == Leader
    requires CommittedPrefix(run.states[i].hist, prefix, NodeAt(run, j, l).currentTerm)
    ensures prefix <= NodeAt(run, j, l).log
  {
    var term := NodeAt(run, j, l).currentTerm;
    RunPrecedes(run, i, j);
    CommittedPrefixFrame(run.states[i].hist, run.states[j].hist, prefix, term, term);
    LeaderLogAt(run, j, l);
    RunInv(run, j);
    LeaderHasPrefix(run.states[j].hist, prefix, term, term);
  }

  // A leader's log begins with the log it was elected with.
  lemma ElectedLog(run: Run, j: nat, l: int)
    requires run.ValidAndGuarded() && Within(run, j, l) && NodeAt(run, j, l).state == Leader
    ensures var n, h := NodeAt(run, j, l), run.states[j].hist;
            n.currentTerm in h.elections && h.elections[n.currentTerm].log <= n.log
  {
    NodeAtOk(run, j, l);
    assert ElectionOk(run.states[j].hist, NodeAt(run, j, l).currentTerm);
  }

  lemma ElectedWith(h: History, prefix: Log, bound: int, later: int)
    requires HistOk(h) && CommittedPrefix(h, prefix, bound) && later in h.elections && bound < later
    ensures prefix <= h.elections[later].log
  {
    if prefix != [] {
      var term, len: nat :| term <= bound && CommitWitness(h, prefix, term, len);
      LeaderCompleteness(h, term, len, later);
    }
  }

  // Committed logs of any two servers at any two moments are comparable.
  lemma CommittedLogsComparable(run: Run, i: nat, j: nat, s: int, t: int)
    requires run.ValidAndGuarded() && Within(run, i, s) && Within(run, j, t)
    ensures var a, b := NodeAt(run, i, s), NodeAt(run, j, t);
            && -1 <= a.commitIndex < |a.log| && -1 <= b.commitIndex < |b.log|
            && (a.log[..a.commitIndex + 1] <= b.log[..b.commitIndex + 1] ||
                b.log[..b.commitIndex + 1] <= a.log[..a.commitIndex + 1])
  {
    NodeAtOk(run, i, s);
    NodeAtOk(run, j, t);
    var m := HistoriesMeet(run, i, j);
    var a, b, h := NodeAt(run, i, s), NodeAt(run, j, t), run.states[m].hist;
    CommittedLater(run.states[i].hist, h, a);
    CommittedLater(run.states[j].hist, h, b);
    PrefixesComparable(h, a.log[..a.commitIndex + 1], b.log[..b.commitIndex + 1], a.currentTerm, b.currentTerm);
  }

  lemma EmittedIsCommitted(run: Run, i: nat, s: int, k: nat)
    requires run.ValidAndGuarded() && Within(run, i, s) && k < |StreamAt(run, i, s)|
    ensures var n := NodeAt(run, i, s);
            && k <= n.commitIndex < |n.log|
            && StreamAt(run, i, s)[k].command == n.log[..n.commitIndex + 1][k].command
            && StreamAt(run, i, s)[k].index == k
  {
    NodeAtOk(run, i, s);
  }

  // State machine safety: any two servers hand the same command to the apply stream at an index.
  lemma StateMachineSafety(run: Run, i: nat, j: nat, s: int, t: int, k: nat)
    requires run.ValidAndGuarded() && Within(run, i, s) && Within(run, j, t)
    requires k < |StreamAt(run, i, s)| && k < |StreamAt(run, j, t)|
    ensures StreamAt(run, i, s)[k].command == StreamAt(run, j, t)[k].command
    ensures StreamAt(run, i, s)[k].index == StreamAt(run, j, t)[k].index == k
  {
    EmittedIsCommitted(run, i, s, k);
    EmittedIsCommitted(run, j, t, k);
    CommittedLogsComparable(run, i, j, s, t);
    var a, b := NodeAt(run, i, s), NodeAt(run, j, t);
    assert a.log[..a.commitIndex + 1][k] == b.log[..b.commitIndex + 1][k];
  }

  // The stream of a server is its log up to lastApplied, each entry once and in order, and it
  // only grows.
  lemma AppliedExactlyOnce(run: Run, i: nat, j: nat, s: int, k: nat)
    requires run.ValidAndGuarded() && i <= j && Within(run, i, s) && Within(run, j, s)
    requires k < |StreamAt(run, i, s)|
    ensures |StreamAt(run, i, s)| == NodeAt(run, i, s).lastApplied + 1 <= NodeAt(run, i, s).commitIndex + 1
    ensures k < |NodeAt(run, i, s).log| && StreamAt(run, i, s)[k].index == k
    ensures StreamAt(run, i, s)[k].command == NodeAt(run, i, s).log[k].command
    ensures StreamAt(run, i, s) <= StreamAt(run, j, s)
  {
    NodeAtOk(run, i, s);
    RunPrecedes(run, i, j);
    assert ServerKeeps(run.states[i], run.states[j], s);
  }

  // Nothing at or below a commit index is ever changed or removed, and terms and commit indexes
  // never decrease.
  lemma NothingCommittedIsLost(run: Run, i: nat, j: nat, s: int)
    requires run.ValidAndGuarded() && i <= j && Within(run, i, s) && Within(run, j, s)
    ensures var n, n' := NodeAt(run, i, s), NodeAt(run, j, s);
            && n.currentTerm <= n'.currentTerm && n.commitIndex <= n'.commitIndex
            && 0 <= n.commitIndex + 1 <= |n.log|
            && n.log[..n.commitIndex + 1] <= n'.log
  {
    RunPrecedes(run, i, j);
    assert ServerKeeps(run.states[i], run.states[j], s);
  }

  // ---------- followers ----------

  lemma SentByStep(g: Global, step: Step, dst: int, req: AppendEntriesRequest)
    requires Enabled(g, step) && AppendCall(dst, req) in Next(g, step).net && AppendCall(dst, req) !in g.net
    ensures step.SendAppend? && step.dst == dst && req == BuildAppendRequest(g.nodes[step.s], dst, step.roundTerm)
  {
  }

  // Every request was built at an earlier moment by its sender, while that led the request's term;
  // so it reaches the end of the log that the leader had.
  lemma {:induction false} RequestProvenance(run: Run, i: nat, dst: int, req: AppendEntriesRequest) returns (k: nat)
    requires run.ValidAndGuarded() && i < |run.states| && AppendCall(dst, req) in run.states[i].net
    ensures k < i && Within(run, k, req.leaderId)
    ensures var leader := NodeAt(run, k, req.leaderId);
            && LeadsRound(leader, req.term) && 0 <= Lookup(leader.nextIndex, dst) <= |leader.log|
            && req == BuildAppendRequest(leader, dst, req.term) && EndOf(req) == |leader.log|
  {
    k := i - 1;
    assert run.StepAt(k) && run.GuardedAt(k);
    if AppendCall(dst, req) in run.states[k].net {
      k := RequestProvenance(run, k, dst, req);
    } else {
      SentByStep(run.states[k], run.steps[k], dst, req);
      NodeAtOk(run, k, run.steps[k].s);
    }
  }

  lemma AcceptedInRun(run: Run, i: nat, s: int, req: AppendEntriesRequest)
    requires run.ValidAndGuarded() && Within(run, i, s) && AppendCall(s, req) in run.states[i].net
    requires HandleAppendEntries(NodeAt(run, i, s), req).1.success
    ensures var n := NodeAt(run, i, s);
            AppendReqOk(run.states[i].hist, req) &&
            TakenAsSent(run.states[i].hist, n, HandleAppendEntries(n, req).0, req)
  {
    NodeAtOk(run, i, s);
    RequestOk(run, i, s, req);
    AcceptedTake(run.states[i].hist, s, NodeAt(run, i, s), req);
  }

  // An accepted request leaves the commit index at the greater of the old one and the leader's,
  // although the code bounds it by the length of the whole log.
  lemma FollowerCommitSound(run: Run, i: nat, s: int, req: AppendEntriesRequest)
    requires run.ValidAndGuarded() && Within(run, i, s) && AppendCall(s, req) in run.states[i].net
    requires HandleAppendEntries(NodeAt(run, i, s), req).1.success
    ensures var n := NodeAt(run, i, s);
            var n' := HandleAppendEntries(n, req).0;
            && n'.commitIndex == (if req.leaderCommit > n.commitIndex then req.leaderCommit else n.commitIndex)
            && -1 <= n'.commitIndex < |n'.log|
            && -1 <= req.leaderCommit < EndOf(req)
  {
    AcceptedInRun(run, i, s, req);
  }

  // An accepted request leaves the follower with all of the log that the sender had when it built
  // the request, and with what the sender counted as committed then.
  lemma FollowerTakesSendersLog(run: Run, i: nat, s: int, req: AppendEntriesRequest) returns (k: nat)
    requires run.ValidAndGuarded() && Within(run, i, s) && AppendCall(s, req) in run.states[i].net
    requires HandleAppendEntries(NodeAt(run, i, s), req).1.success
    ensures k < i && Within(run, k, req.leaderId) && LeadsRound(NodeAt(run, k, req.leaderId), req.term)
    ensures var sender, n' := NodeAt(run, k, req.leaderId), HandleAppendEntries(NodeAt(run, i, s), req).0;
            sender.log <= n'.log && sender.commitIndex == req.leaderCommit <= n'.commitIndex
  {
    k := RequestProvenance(run, i, s, req);
    FollowerCommitSound(run, i, s, req);
    AcceptedInRun(run, i, s, req);
    CarriesSendersLog(run, k, i, req);
  }

  lemma CarriesSendersLog(run: Run, k: nat, i: nat, req: AppendEntriesRequest)
    requires run.ValidAndGuarded() && k <= i < |run.states| && Within(run, k, req.leaderId)
    requires LeadsRound(NodeAt(run, k, req.leaderId), req.term) && EndOf(req) == |NodeAt(run, k, req.leaderId).log|
    requires AppendReqOk(run.states[i].hist, req)
    ensures Carried(run.states[i].hist, req) == NodeAt(run, k, req.leaderId).log
  {
    LeaderLogAt(run, k, req.leaderId);
    RunPrecedes(run, k, i);
    assert GrowsInTerm(req.term, run.states[k].hist.leaderLog[req.term], run.states[i].hist.leaderLog[req.term]);
  }

  // Everything up to the new commit index is in the log of every leader of the request's term from
  // then on, and of every leader of a later term at any moment.
  lemma FollowerCommitsLeadersEntries(run: Run, i: nat, j: nat, s: int, l: int, req: AppendEntriesRequest)
    requires run.ValidAndGuarded() && Within(run, i, s) && AppendCall(s, req) in run.states[i].net
    requires HandleAppendEntries(NodeAt(run, i, s), req).1.success
    requires Within(run, j, l) && NodeAt(run, j, l).state == Leader
    requires NodeAt(run, j, l).currentTerm > req.term || (NodeAt(run, j, l).currentTerm == req.term && i <= j)
    ensures var n' := HandleAppendEntries(NodeAt(run, i, s), req).0;
            -1 <= n'.commitIndex < |n'.log| && n'.log[..n'.commitIndex + 1] <= NodeAt(run, j, l).log
  {
    AcceptedInRun(run, i, s, req);
    var n' := HandleAppendEntries(NodeAt(run, i, s), req).0;
    var prefix := n'.log[..n'.commitIndex + 1];
    if NodeAt(run, j, l).currentTerm == req.term {
      CommittedReachesPresentLeader(run, i, j, l, prefix);
    } else {
      CommittedReachesLaterLeader(run, i, j, l, prefix, req.term);
    }
  }

  lemma LeaderLogAt(run: Run, i: nat, l: int)
    requires run.ValidAndGuarded() && Within(run, i, l) && NodeAt(run, i, l).state == Leader
    ensures var n, h := NodeAt(run, i, l), run.states[i].hist;
            n.currentTerm in h.leaderLog && h.leaderLog[n.currentTerm] == n.log
  {
    NodeAtOk(run, i, l);
  }

  lemma AcceptedTake(h: History, s: int, n: Node, req: AppendEntriesRequest)
    requires HistOk(h) && NodeOk(h, s, n) && AppendReqOk(h, req) && req.leaderId != s
    requires HandleAppendEntries(n, req).1.success
    ensures TakenAsSent(h, n, HandleAppendEntries(n, req).0, req)
  {
    var n2 := StepDown(SeeTerm(n, req.term), req.term);
    var h2 := Close(h, n, n2);
    assert Accepts(n2, req) && HandleAppendEntries(n, req).0 == TakeEntries(n2, req);
    ReadyToTake(h, s, n, req);
    AcceptedTakeReady(h2, n2, req);
    TakenUnclosed(h, h2, n, n2, TakeEntries(n2, req), req);
  }

  // Whether candidacies are over does not matter to what a request is worth.
  lemma TakenUnclosed(h: History, h2: History, n: Node, n2: Node, n': Node, req: AppendEntriesRequest)
    requires h2.leaderLog == h.leaderLog && h2.acks == h.acks && h2.servers == h.servers
    requires AppendReqOk(h, req) && AppendReqOk(h2, req) && n2.commitIndex == n.commitIndex
    requires TakenAsSent(h2, n2, n', req)
    ensures TakenAsSent(h, n, n', req)
  {
    CommittedPrefixFrame(h2, h, n'.log[..n'.commitIndex + 1], req.term, req.term);
  }

  // What accepting a request makes of n.
  ghost predicate TakenAsSent(h: History, n: Node, n': Node, req: AppendEntriesRequest)
    requires AppendReqOk(h, req)
  {
    && n'.commitIndex == (if req.leaderCommit > n.commitIndex then req.leaderCommit else n.commitIndex)
    && -1 <= n'.commitIndex < |n'.log|
    && CommittedPrefix(h, n'.log[..n'.commitIndex + 1], req.term)
    && Carried(h, req) <= n'.log
  }

  lemma ReadyToTake(h: History, s: int, n: Node, req: AppendEntriesRequest)
    requires HistOk(h) && NodeOk(h, s, n) && AppendReqOk(h, req) && req.leaderId != s
    requires req.term == SeeTerm(n, req.term).currentTerm
    ensures var n2 := StepDown(SeeTerm(n, req.term), req.term);
            var h2 := Close(h, n, n2);
            && HistOk(h2) && LogOk(h2, n2.log, n2.currentTerm) && CommitOk(h2, n2)
            && AppendReqOk(h2, req) && n2.currentTerm == req.term && n2.commitIndex == n.commitIndex
  {
    ReadyOk(h, s, n, req);
    AppendReqFrame(h, Close(h, n, StepDown(SeeTerm(n, req.term), req.term)), s, req);
  }

  lemma AcceptedTakeReady(h: History, n: Node, req: AppendEntriesRequest)
    requires HistOk(h) && LogOk(h, n.log, n.currentTerm) && CommitOk(h, n) && n.currentTerm == req.term
    requires AppendReqOk(h, req) && Accepts(n, req)
    ensures TakenAsSent(h, n, TakeEntries(n, req), req)
  {
    TakeKeepsCommit(h, n, req);
  }
}
