/**
 The consensus module as the object it is: fields updated in place under its mutex, with the
 loops of the original. Every method is proved to have exactly the effect of the step function
 that the protocol is made of.
 */
module RaftModule {
  import opened Chat
  import opened Logs
  import opened Options
  import C = Consensus
  import opened Consensus
  import opened Storage
  import opened Durability
  import opened Outcomes

  function Elems(s: seq<int>): set<int> { set x | x in s }

  ghost predicate Distinct(s: seq<int>) {
    forall i, j | 0 <= i < j < |s| :: s[i] != s[j]
  }

  lemma {:induction false} ElemsSize(s: seq<int>)
    requires Distinct(s)
    ensures |Elems(s)| == |s|
  {
    if s != [] {
      var init := s[..|s| - 1];
      ElemsSize(init);
      assert Elems(s) == Elems(init) + {s[|s| - 1]};
    }
  }

  class ConsensusModule {
    const id: int
    const peerIds: seq<int>
    const storage: DiskStore
    var currentTerm: int
    var votedFor: int
    var log: Log
    var commitIndex: int
    var lastApplied: int
    var state: Role
    var nextIndex: map<int, int>
    var matchIndex: map<int, int>
    var races: seq<Race>
    var starting: multiset<nat>
    var rounds: set<int>

    ghost predicate Valid() { Distinct(peerIds) && id !in peerIds }

    function View(): Node
      reads this
    {
      Node(id, Elems(peerIds), currentTerm, votedFor, log, commitIndex, lastApplied, state, nextIndex, matchIndex,
           races, starting, rounds)
    }

    // A new module starts from the saved state if there is any.
    constructor (id: int, peerIds: seq<int>, storage: DiskStore)
      requires Distinct(peerIds) && id !in peerIds
      ensures Valid() && this.id == id && this.peerIds == peerIds && this.storage == storage
      ensures View() == Boot(id, Elems(peerIds), storage.replicatedlog)
      ensures commitIndex == -1 && lastApplied == -1 && state == Follower
      ensures nextIndex == map[] && matchIndex == map[] && races == [] && starting == multiset{} && rounds == {}
      ensures if storage.replicatedlog.Some? && |storage.replicatedlog.value.log| > 0
              then storage.replicatedlog == Some(Saved(currentTerm, votedFor, log))
              else currentTerm == 0 && votedFor == -1 && log == []
    {
      this.id, this.peerIds, this.storage := id, peerIds, storage;
      currentTerm, votedFor, log := 0, -1, [];
      commitIndex, lastApplied, state := -1, -1, Follower;
      nextIndex, matchIndex := map[], map[];
      races, starting, rounds := [], multiset{}, {};
      new;
      var hasData := storage.HasData();
      if hasData {
        currentTerm, votedFor, log := storage.GetState();
      }
    }

    method PersistToStorage()
      modifies storage`replicatedlog
      ensures storage.replicatedlog == Some(Saved(currentTerm, votedFor, log))
    {
      storage.SetState(currentTerm, votedFor, log);
    }

    method LastLogIndexAndTerm() returns (index: int, term: int)
      ensures index == LastLogIndex(log) && term == LastLogTerm(log)
    {
      if |log| > 0 {
        index := |log| - 1;
        term := log[index].term;
      } else {
        index, term := -1, -1;
      }
    }

    method BecomeFollower(term: int)
      modifies this
      ensures View() == C.BecomeFollower(old(View()), term)
    {
      state := Follower;
      currentTerm := term;
      votedFor := -1;
    }

    method StartElection()
      modifies this
      ensures View() == C.StartElection(old(View()))
    {
      state := Candidate;
      currentTerm := currentTerm + 1;
      votedFor := id;
      races := races + [Race(currentTerm, {id})];
    }

    method BuildVoteRequest(savedCurrentTerm: int) returns (args: RequestVoteRequest)
      ensures args == C.BuildVoteRequest(View(), savedCurrentTerm)
    {
      var index, term := LastLogIndexAndTerm();
      args := RequestVoteRequest(savedCurrentTerm, id, index, term);
    }

    method RequestVoteHelper(req: RequestVoteRequest) returns (reply: RequestVoteResponse)
      modifies this, storage`replicatedlog
      ensures (View(), reply) == C.HandleRequestVote(old(View()), req)
      ensures reply.term == currentTerm == Greater(old(currentTerm), req.term)
      ensures storage.replicatedlog == Some(Saved(currentTerm, votedFor, log))
    {
      var lastLogIndex, lastLogTerm := LastLogIndexAndTerm();
      if req.term > currentTerm {
        BecomeFollower(req.term);
      }
      var granted := false;
      if currentTerm == req.term &&
         (votedFor == -1 || votedFor == req.candidateId) &&
         (req.lastLogTerm > lastLogTerm || (req.lastLogTerm == lastLogTerm && req.lastLogIndex >= lastLogIndex)) {
        granted := true;
        votedFor := req.candidateId;
      }
      reply := RequestVoteResponse(currentTerm, granted);
      PersistToStorage();
    }

    method StartLeader()
      modifies this
      ensures View() == C.StartLeader(old(View()))
    {
      state := Leader;
      var k := 0;
      while k < |peerIds|
        invariant 0 <= k <= |peerIds|
        invariant View() == old(View()).(state := Leader, nextIndex := nextIndex, matchIndex := matchIndex)
        invariant ResetUpTo(old(nextIndex), nextIndex, k, |log|)
        invariant ResetUpTo(old(matchIndex), matchIndex, k, -1)
      {
        nextIndex := nextIndex[peerIds[k] := |log|];
        matchIndex := matchIndex[peerIds[k] := -1];
        k := k + 1;
      }
      ResetAll(old(nextIndex), nextIndex, |log|);
      ResetAll(old(matchIndex), matchIndex, -1);
    }

    // The first k peers have the given value, and nothing else changed.
    ghost predicate ResetUpTo(was: map<int, int>, now: map<int, int>, k: nat, value: int) {
      && k <= |peerIds|
      && (forall p :: p in now <==> p in was || p in peerIds[..k])
      && (forall p | p in now :: now[p] == if p in peerIds[..k] then value else was[p])
    }

    lemma ResetAll(was: map<int, int>, now: map<int, int>, value: int)
      requires ResetUpTo(was, now, |peerIds|, value)
      ensures now == was + map p | p in Elems(peerIds) :: value
    {
      var reset := map p | p in Elems(peerIds) :: value;
      assert peerIds[..|peerIds|] == peerIds;
      assert forall p :: p in reset <==> p in peerIds;
      assert forall p :: p in now <==> p in was + reset;
      assert now.Keys == (was + reset).Keys;
      assert forall p | p in now :: now[p] == (was + reset)[p];
    }

    // A start of leadership that a winning vote spawned, run without regard to what happened since.
    method RunStart(race: nat)
      modifies this
      ensures View() == C.RunStart(old(View()), race)
    {
      starting := starting - multiset{race};
      StartLeader();
    }

    method HandleVoteReply(peerId: int, race: nat, reply: RequestVoteResponse)
      requires Valid() && race < |races|
      modifies this
      ensures View() == C.HandleVoteReply(old(View()), peerId, race, reply)
    {
      if state == Leader {
        StartLeader();
        return;
      }
      if state == Follower {
        return;
      }
      var savedCurrentTerm := races[race].term;
      if reply.term > savedCurrentTerm {
        BecomeFollower(reply.term);
      } else if reply.term == savedCurrentTerm {
        if reply.voteGranted {
          races := races[race := races[race].(voters := races[race].voters + {peerId})];
          var votesReceived := |races[race].voters|;
          ElemsSize(peerIds);
          if votesReceived * 2 > |peerIds| + 1 {
            starting := starting + multiset{race};
          }
        }
      }
    }

    // Commands that reach a server that is not the leader are forwarded, which is not modelled.
    method Submit(command: Command)
      modifies this, storage`replicatedlog
      ensures View() == C.Submit(old(View()), command)
      ensures storage.replicatedlog ==
              if old(state) == Leader then Some(Saved(currentTerm, votedFor, log)) else old(storage.replicatedlog)
    {
      if state == Leader {
        log := log + [LogEntry(command, currentTerm)];
        PersistToStorage();
      }
    }

    // A round of requests is begun only by a leader; each request is built in a section of its own.
    method LeaderSendAEs() returns (started: bool)
      modifies this`rounds
      ensures started == (state == Leader)
      ensures View() == if started then BeginRound(old(View())) else old(View())
    {
      if state != Leader {
        return false;
      }
      rounds := rounds + {currentTerm};
      started := true;
    }

    method BuildAppendEntries(peerId: int, savedCurrentTerm: int) returns (args: AppendEntriesRequest)
      requires 0 <= Lookup(nextIndex, peerId) <= |log|
      ensures args == C.BuildAppendRequest(View(), peerId, savedCurrentTerm)
    {
      var ni := Lookup(nextIndex, peerId);
      var prevLogIndex := ni - 1;
      var prevLogTerm := -1;
      if prevLogIndex >= 0 {
        prevLogTerm := log[prevLogIndex].term;
      }
      args := AppendEntriesRequest(savedCurrentTerm, id, prevLogIndex, prevLogTerm, log[ni..], commitIndex);
    }

    // The loop that finds an insertion point: the first position where the terms differ, or the
    // end of the log or of the new entries.
    method FindInsertion(req: AppendEntriesRequest) returns (logInsertIndex: int, newEntriesIndex: nat)
      requires -1 <= req.prevLogIndex < |log|
      ensures newEntriesIndex == Overlap(log, req.prevLogIndex + 1, req.entries)
      ensures logInsertIndex == req.prevLogIndex + 1 + newEntriesIndex
    {
      logInsertIndex := req.prevLogIndex + 1;
      newEntriesIndex := 0;
      while logInsertIndex < |log| && newEntriesIndex < |req.entries|
        invariant newEntriesIndex <= |req.entries|
        invariant logInsertIndex == req.prevLogIndex + 1 + newEntriesIndex <= |log|
        invariant Overlap(log, req.prevLogIndex + 1, req.entries)
                  == newEntriesIndex + Overlap(log, logInsertIndex, req.entries[newEntriesIndex..])
      {
        if log[logInsertIndex].term != req.entries[newEntriesIndex].term {
          break;
        }
        assert req.entries[newEntriesIndex..][1..] == req.entries[newEntriesIndex + 1..];
        logInsertIndex := logInsertIndex + 1;
        newEntriesIndex := newEntriesIndex + 1;
      }
    }

    method TakeEntries(req: AppendEntriesRequest)
      requires -1 <= req.prevLogIndex && Accepts(View(), req)
      modifies this`log, this`commitIndex
      ensures View() == C.TakeEntries(old(View()), req)
    {
      var logInsertIndex, newEntriesIndex := FindInsertion(req);
      if newEntriesIndex < |req.entries| {
        log := log[..logInsertIndex] + req.entries[newEntriesIndex..];
      }
      if req.leaderCommit > commitIndex {
        commitIndex := Min(req.leaderCommit, |log| - 1);
      }
    }

    // A previous index below -1 would be an index out of range in the original.
    method AppendEntriesHelper(req: AppendEntriesRequest) returns (reply: AppendEntriesResponse)
      requires -1 <= req.prevLogIndex
      modifies this, storage`replicatedlog
      ensures (View(), reply) == C.HandleAppendEntries(old(View()), req)
      ensures reply.term == currentTerm == Greater(old(currentTerm), req.term)
      ensures storage.replicatedlog == Some(Saved(currentTerm, votedFor, log))
    {
      if req.term > currentTerm {
        BecomeFollower(req.term);
      }
      var success := false;
      if req.term == currentTerm {
        if state != Follower {
          BecomeFollower(req.term);
        }
        if req.prevLogIndex == -1 || (req.prevLogIndex < |log| && req.prevLogTerm == log[req.prevLogIndex].term) {
          success := true;
          TakeEntries(req);
        }
      }
      reply := AppendEntriesResponse(currentTerm, success, 0, 0);
      PersistToStorage();
    }

    // The loop that counts the peers whose matchIndex has reached i, and this server.
    method CountMatches(i: int) returns (matchCount: int)
      requires Valid()
      ensures matchCount == |Matched(View(), i)| + 1
    {
      matchCount := 1;
      ghost var counted: set<int> := {};
      for k := 0 to |peerIds|
        invariant counted == set p | p in Elems(peerIds[..k]) && Lookup(matchIndex, p) >= i
        invariant matchCount == |counted| + 1
      {
        assert Elems(peerIds[..k + 1]) == Elems(peerIds[..k]) + {peerIds[k]};
        assert peerIds[k] !in Elems(peerIds[..k]);
        if Lookup(matchIndex, peerIds[k]) >= i {
          matchCount := matchCount + 1;
          counted := counted + {peerIds[k]};
        }
      }
      assert peerIds[..|peerIds|] == peerIds;
      assert counted == Matched(View(), i);
    }

    // Returns whether the commit index moved, in which case the module is notified.
    method HandleAppendEntriesReply(peerId: int, req: AppendEntriesRequest, reply: AppendEntriesResponse)
      returns (notify: bool)
      requires Valid() && -1 <= commitIndex
      modifies this
      ensures View() == C.HandleAppendReply(old(View()), peerId, req, reply)
      ensures notify == (commitIndex != old(commitIndex))
      ensures old(state) == Leader && reply.success && req.term == reply.term <= old(currentTerm) ==>
                GreatestCommit(View(), old(commitIndex), commitIndex)
    {
      ghost var was := View();
      notify := false;
      if reply.term > currentTerm {
        BecomeFollower(reply.term);
        return;
      }
      if state == Leader && req.term == reply.term {
        if reply.success {
          var ni := req.prevLogIndex + 1;
          nextIndex := nextIndex[peerId := ni + |req.entries|];
          matchIndex := matchIndex[peerId := nextIndex[peerId] - 1];
          var savedCommitIndex := commitIndex;
          ghost var n := View();
          assert n == Acknowledge(old(View()), peerId, EndOf(req));
          ElemsSize(peerIds);
          var i := commitIndex + 1;
          while i < |log|
            invariant savedCommitIndex < i && (i <= |log| || i == savedCommitIndex + 1)
            invariant View() == n.(commitIndex := commitIndex)
            invariant commitIndex == AdvanceTo(n, i - 1)
          {
            if log[i].term == currentTerm {
              var matchCount := CountMatches(i);
              assert Matched(View(), i) == Matched(n, i);
              if matchCount * 2 > |peerIds| + 1 {
                commitIndex := i;
              }
            }
            i := i + 1;
          }
          NothingPastTheEnd(n, i - 1);
          CommitsTheGreatest(was, peerId, req, reply);
          notify := commitIndex != savedCommitIndex;
        } else {
          if reply.conflictTerm >= 0 {
            var lastIndexOfTerm := -1;
            var i := |log| - 1;
            while i >= 0
              invariant -1 <= i < |log| && lastIndexOfTerm == -1
              invariant LastIndexOfTerm(log, |log|, reply.conflictTerm)
                        == LastIndexOfTerm(log, i + 1, reply.conflictTerm)
            {
              if log[i].term == reply.conflictTerm {
                lastIndexOfTerm := i;
                break;
              }
              i := i - 1;
            }
            if lastIndexOfTerm >= 0 {
              nextIndex := nextIndex[peerId := lastIndexOfTerm + 1];
            } else {
              nextIndex := nextIndex[peerId := reply.conflictIndex];
            }
          } else {
            nextIndex := nextIndex[peerId := reply.conflictIndex];
          }
        }
      }
    }

    method CommitChanSender() returns (sent: seq<CommitEntry>)
      requires 0 <= lastApplied + 1 && commitIndex < |log|
      modifies this
      ensures sent == NewlyCommitted(old(View())) && View() == SendCommits(old(View()))
      ensures log == old(log) && commitIndex == old(commitIndex)
      ensures lastApplied == Greater(old(lastApplied), commitIndex) && |sent| == lastApplied - old(lastApplied)
      ensures forall k | 0 <= k < |sent| ::
                sent[k].command == log[old(lastApplied) + 1 + k].command && sent[k].index == old(lastApplied) + 1 + k
    {
      var savedTerm, savedLastApplied := currentTerm, lastApplied;
      var entries: Log := [];
      if commitIndex > lastApplied {
        entries := log[lastApplied + 1..commitIndex + 1];
        lastApplied := commitIndex;
      }
      sent := [];
      for i := 0 to |entries|
        invariant |sent| == i
        invariant forall k | 0 <= k < i ::
                    sent[k] == CommitEntry(entries[k].command, savedLastApplied + k + 1, savedTerm)
      {
        sent := sent + [CommitEntry(entries[i].command, savedLastApplied + (i + 1), savedTerm)];
      }
    }
  }

  // A commit index at or beyond the end of the log stays where it is.
  lemma NothingPastTheEnd(n: Node, top: int)
    requires |n.log| - 1 <= top && (top == |n.log| - 1 || top == n.commitIndex)
    ensures AdvanceTo(n, top) == AdvanceCommit(n)
  {
  }
}
