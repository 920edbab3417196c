/**
 Replicated logs as values: the up-to-date order of the vote check, the overlap search and
 splice of AppendEntries, log matching, and quorum overlap.
 */
module Logs {
  import opened Chat

  datatype LogEntry = LogEntry(command: Command, term: int)
  type Log = seq<LogEntry>

  function LastLogIndex(log: Log): int { |log| - 1 }

  function LastLogTerm(log: Log): int { if |log| > 0 then log[|log| - 1].term else -1 }

  // The vote check: is a log that ends at (index, term) at least as up to date as `log`?
  predicate UpToDate(index: int, term: int, log: Log) {
    term > LastLogTerm(log) || (term == LastLogTerm(log) && index >= LastLogIndex(log))
  }

  // How many of `entries` agree, term by term, with the log from position `at` on.
  function Overlap(log: Log, at: nat, entries: Log): nat
    ensures Overlap(log, at, entries) <= |entries|
    ensures at <= |log| ==> at + Overlap(log, at, entries) <= |log|
    decreases |entries|
  {
    if at >= |log| || entries == [] || log[at].term != entries[0].term then 0
    else 1 + Overlap(log, at + 1, entries[1..])
  }

  // Replace the log from the first disagreement on; keep the log when there is none.
  function Splice(log: Log, at: nat, entries: Log): Log
    requires at <= |log|
  {
    var k := Overlap(log, at, entries);
    if k < |entries| then log[..at + k] + entries[k..] else log
  }

  // Two logs that agree on the term at an index agree on everything up to that index.
  ghost predicate LogMatching(a: Log, b: Log) {
    forall i | 0 <= i < |a| && i < |b| && a[i].term == b[i].term :: a[..i + 1] == b[..i + 1]
  }

  // Keep my log if the leader's is a prefix of it, otherwise take the leader's.
  function Merge(mine: Log, leader: Log): Log {
    if leader <= mine then mine else leader
  }

  lemma {:induction false} OverlapAgrees(log: Log, leader: Log, at: nat)
    requires at <= |log| && at <= |leader|
    requires log[..at] == leader[..at]
    requires LogMatching(log, leader)
    ensures var k := Overlap(log, at, leader[at..]);
            && log[..at + k] == leader[..at + k]
            && (at + k < |log| && at + k < |leader| ==> log[at + k].term != leader[at + k].term)
    decreases |leader| - at
  {
    if at < |log| && at < |leader| && log[at].term == leader[at].term {
      assert log[..at + 1] == leader[..at + 1];
      OverlapAgrees(log, leader, at + 1);
      assert leader[at..][1..] == leader[at + 1..];
    }
  }

  // The overlap ends before the leader's log does: its rest is taken.
  lemma SpliceTakesLeader(log: Log, leader: Log, at: nat, k: nat)
    requires at + k < |leader| && at + k <= |log| && log[..at + k] == leader[..at + k]
    requires at + k < |log| ==> log[at + k].term != leader[at + k].term
    ensures log[..at + k] + leader[at..][k..] == leader
    ensures !(leader <= log)
  {
    assert leader[at..][k..] == leader[at + k..];
    assert leader == leader[..at + k] + leader[at + k..];
    if at + k < |log| {
      assert log[at + k] != leader[at + k];
    }
  }

  lemma OverlapIsAll(log: Log, leader: Log)
    requires |leader| <= |log| && log[..|leader|] == leader[..|leader|]
    ensures leader <= log
  {
    assert leader == leader[..|leader|];
  }

  lemma AgreeBefore(log: Log, leader: Log, at: nat)
    requires LogMatching(log, leader) && at <= |log| && at <= |leader|
    requires at == 0 || log[at - 1].term == leader[at - 1].term
    ensures log[..at] == leader[..at]
  {
    if at > 0 {
      assert log[..at - 1 + 1] == leader[..at - 1 + 1];
    }
  }

  // AppendEntries as a merge: under log matching the search and the splice do not depend on
  // where the request starts.
  lemma SpliceIsMerge(log: Log, leader: Log, at: nat)
    requires at <= |log| && at <= |leader|
    requires at == 0 || log[at - 1].term == leader[at - 1].term
    requires LogMatching(log, leader)
    ensures Splice(log, at, leader[at..]) == Merge(log, leader)
  {
    AgreeBefore(log, leader, at);
    OverlapAgrees(log, leader, at);
    var k := Overlap(log, at, leader[at..]);
    if at + k < |leader| {
      SpliceTakesLeader(log, leader, at, k);
    } else {
      OverlapIsAll(log, leader);
    }
  }

  // Prefixes of one log are prefixes of each other.
  lemma PrefixesOfOne(a: Log, b: Log, log: Log)
    requires a <= log && b <= log
    ensures a <= b || b <= a
  {
    assert a == log[..|a|] && b == log[..|b|];
  }

  // Requests of one leader are prefixes of one growing log: merging them is idempotent, and
  // the order in which they arrive does not matter.
  lemma MergeReorders(mine: Log, shorter: Log, longer: Log)
    requires shorter <= longer
    ensures Merge(Merge(mine, longer), longer) == Merge(mine, longer)
    ensures Merge(Merge(mine, shorter), longer) == Merge(mine, longer)
    ensures Merge(Merge(mine, longer), shorter) == Merge(mine, longer)
  {
  }

  // ---------- terms and quorums ----------

  ghost predicate Sorted(log: Log, bound: int) {
    && (forall i | 0 <= i < |log| :: 1 <= log[i].term <= bound)
    && (forall i, j | 0 <= i < j < |log| :: log[i].term <= log[j].term)
  }

  lemma SubsetSize<T>(a: set<T>, b: set<T>)
    requires a <= b
    ensures |a| <= |b|
  {
    assert b == a + (b - a);
  }

  predicate Majority(q: set<int>, servers: set<int>) {
    q <= servers && 2 * |q| > |servers|
  }

  lemma QuorumsMeet(a: set<int>, b: set<int>, servers: set<int>) returns (x: int)
    requires Majority(a, servers) && Majority(b, servers)
    ensures x in a && x in b
  {
    if forall x | x in a :: x !in b {
      assert |a + b| == |a| + |b|;
      SubsetSize(a + b, servers);
      assert false;
    }
    x :| x in a && x in b;
  }
}
