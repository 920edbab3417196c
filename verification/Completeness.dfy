/**
 Leader completeness and the comparability of committed prefixes. Both follow from the
 invariant of one state, by induction over the terms that have a leader.
 */
module Completeness {
  import opened Logs
  import opened Protocol
  import opened Invariants

  // A log that ends in an entry of term t is a prefix of the log of the leader of t.
  lemma EndsInLeaderLog(h: History, log: Log)
    requires |log| > 0 && Canonical(h.leaderLog, log)
    ensures LastLogTerm(log) in h.leaderLog && log <= h.leaderLog[LastLogTerm(log)]
  {
    assert Created(h.leaderLog, log, |log| - 1);
    assert log[..|log| - 1 + 1] == log;
  }

  // A candidate whose log is at least as up to date as a log with the committed prefix has it too,
  // provided that every leader in between has it.
  lemma UpToDateHas(h: History, term: int, len: nat, voterLog: Log, log: Log)
    requires LeaderLogsOk(h) && Committed(h, term, len)
    requires Canonical(h.leaderLog, voterLog) && Canonical(h.leaderLog, log)
    requires forall i, j | 0 <= i < j < |voterLog| :: voterLog[i].term <= voterLog[j].term
    requires h.leaderLog[term][..len] <= voterLog
    requires UpToDate(LastLogIndex(log), LastLogTerm(log), voterLog)
    requires LastLogTerm(log) > term ==>
               LastLogTerm(log) in h.leaderLog && h.leaderLog[term][..len] <= h.leaderLog[LastLogTerm(log)]
    ensures h.leaderLog[term][..len] <= log
  {
    var committed := h.leaderLog[term][..len];
    assert voterLog[len - 1] == committed[len - 1];
    assert LastLogTerm(voterLog) >= term >= 1;
    EndsInLeaderLog(h, voterLog);
    EndsInLeaderLog(h, log);
    var t := LastLogTerm(log);
    if t > LastLogTerm(voterLog) {
      // The last entry of `log` has a term above that of the last committed entry, so it comes after it.
      var leader := h.leaderLog[t];
      assert leader[len - 1].term == term;
      assert leader[|log| - 1].term == t;
      assert LogOk(h, leader, t);
      assert |log| > len - 1;
    }
  }

  // What a majority acknowledged in a term, up to an entry of that term, every later leader had
  // when it was elected.
  lemma {:induction false} LeaderCompleteness(h: History, term: int, len: nat, later: int)
    requires HistOk(h) && Committed(h, term, len)
    requires later in h.elections && term < later
    ensures h.leaderLog[term][..len] <= h.elections[later].log
    decreases later - term, 0
  {
    var e := h.elections[later];
    assert ElectionOk(h, later);
    var v := QuorumsMeet(AckSet(h, term, len), e.voters.Keys, h.servers);
    assert VoterOk(h, later, e, v);
    assert Kept(h, term, len, e.voters[v], later - 1);
    if !(h.leaderLog[term][..len] <= e.voters[v]) {
      var mid :| term < mid <= later - 1 && Lacks(h, term, len, mid);
      LeaderHas(h, term, len, mid);
      assert false;
    }
    PrefixOk(h, e.log, h.leaderLog[later], later);
    var t := LastLogTerm(e.log);
    if t > term {
      assert Created(h.leaderLog, e.log, |e.log| - 1);
      assert e.log[|e.log| - 1].term == t <= later - 1;
      LeaderHas(h, term, len, t);
    }
    UpToDateHas(h, term, len, e.voters[v], e.log);
  }

  lemma {:induction false} LeaderHas(h: History, term: int, len: nat, later: int)
    requires HistOk(h) && Committed(h, term, len)
    requires later in h.leaderLog && term <= later
    ensures h.leaderLog[term][..len] <= h.leaderLog[later]
    decreases later - term, 1
  {
    if term < later {
      LeaderCompleteness(h, term, len, later);
      assert ElectionOk(h, later);
    }
  }

  lemma PrefixOk(h: History, prefix: Log, log: Log, bound: int)
    requires LogOk(h, log, bound) && prefix <= log
    ensures LogOk(h, prefix, bound)
  {
    forall i | 0 <= i < |prefix| ensures Created(h.leaderLog, prefix, i) {
      assert Created(h.leaderLog, log, i);
      assert prefix[..i + 1] == log[..i + 1];
    }
  }

  // A committed prefix is in the log of every leader of the terms from the bound on.
  lemma LeaderHasPrefix(h: History, prefix: Log, bound: int, later: int)
    requires HistOk(h) && CommittedPrefix(h, prefix, bound)
    requires later in h.leaderLog && bound <= later
    ensures prefix <= h.leaderLog[later]
  {
    if prefix != [] {
      var term, len: nat :| term <= bound && CommitWitness(h, prefix, term, len);
      WitnessInLeader(h, prefix, term, len, later);
    }
  }

  lemma WitnessInLeader(h: History, prefix: Log, term: int, len: nat, later: int)
    requires HistOk(h) && CommitWitness(h, prefix, term, len) && later in h.leaderLog && term <= later
    ensures prefix <= h.leaderLog[later]
  {
    LeaderHas(h, term, len, later);
  }

  // Any two committed prefixes are comparable.
  lemma PrefixesComparable(h: History, a: Log, b: Log, boundA: int, boundB: int)
    requires HistOk(h) && CommittedPrefix(h, a, boundA) && CommittedPrefix(h, b, boundB)
    ensures a <= b || b <= a
  {
    if a != [] && b != [] {
      var ta, la: nat :| ta <= boundA && CommitWitness(h, a, ta, la);
      var tb, lb: nat :| tb <= boundB && CommitWitness(h, b, tb, lb);
      var t := if ta <= tb then tb else ta;
      WitnessInLeader(h, a, ta, la, t);
      WitnessInLeader(h, b, tb, lb, t);
      PrefixesOfOne(a, b, h.leaderLog[t]);
    }
  }

  // Logs of one state that agree on the term at an index agree up to that index.
  lemma CanonicalLogsMatch(h: History, a: Log, b: Log)
    requires Canonical(h.leaderLog, a) && Canonical(h.leaderLog, b)
    ensures LogMatching(a, b)
  {
    forall i | 0 <= i < |a| && i < |b| && a[i].term == b[i].term
      ensures a[..i + 1] == b[..i + 1]
    {
      assert Created(h.leaderLog, a, i) && Created(h.leaderLog, b, i);
      var l := h.leaderLog[a[i].term];
      assert a[..i + 1] <= l && b[..i + 1] <= l;
    }
  }
}
