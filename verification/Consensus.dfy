/**
 One server's consensus module as a value, and the effect of every section of code that runs
 under its mutex as a function from state to state.
 */
module Consensus {
  import opened Chat
  import opened Logs

  datatype Role = Follower | Candidate | Leader

  datatype RequestVoteRequest =
    RequestVoteRequest(term: int, candidateId: int, lastLogIndex: int, lastLogTerm: int)

  datatype RequestVoteResponse = RequestVoteResponse(term: int, voteGranted: bool)

  datatype AppendEntriesRequest = AppendEntriesRequest(
    term: int, leaderId: int, prevLogIndex: int, prevLogTerm: int, entries: Log, leaderCommit: int)

  datatype AppendEntriesResponse =
    AppendEntriesResponse(term: int, success: bool, conflictIndex: int, conflictTerm: int)

  // An election that a server started: its term and the servers whose votes it has counted, which
  // are the variables that the goroutines of one election share.
  datatype Race = Race(term: int, voters: set<int>)

  datatype CommitEntry = CommitEntry(command: Command, index: int, term: int)

  datatype Node = Node(
    id: int,
    peers: set<int>,
    currentTerm: int,
    votedFor: int,             // -1 when no vote is recorded
    log: Log,
    commitIndex: int,
    lastApplied: int,
    state: Role,
    nextIndex: map<int, int>,
    matchIndex: map<int, int>,
    races: seq<Race>,          // the elections this server started, in order
    starting: multiset<nat>,   // the races whose winning vote spawned a start of leadership that is due
    rounds: set<int>)          // the terms in which it began to send AppendEntries requests

  // Reading a missing key of an integer map gives 0.
  function Lookup(m: map<int, int>, k: int): int { if k in m then m[k] else 0 }

  function Init(id: int, peers: set<int>): Node {
    Node(id, peers, 0, -1, [], -1, -1, Follower, map[], map[], [], multiset{}, {})
  }

  function BecomeFollower(n: Node, term: int): Node {
    n.(state := Follower, currentTerm := term, votedFor := -1)
  }

  function StartElection(n: Node): Node {
    var term := n.currentTerm + 1;
    n.(state := Candidate, currentTerm := term, votedFor := n.id, races := n.races + [Race(term, {n.id})])
  }

  // Each request of an election is built by its own goroutine, from the log at that moment.
  function BuildVoteRequest(n: Node, electionTerm: int): RequestVoteRequest {
    RequestVoteRequest(electionTerm, n.id, LastLogIndex(n.log), LastLogTerm(n.log))
  }

  predicate GrantsVote(n: Node, req: RequestVoteRequest) {
    && n.currentTerm == req.term
    && (n.votedFor == -1 || n.votedFor == req.candidateId)
    && UpToDate(req.lastLogIndex, req.lastLogTerm, n.log)
  }

  // The state in which a request of `term` is examined.
  function SeeTerm(n: Node, term: int): Node {
    if term > n.currentTerm then BecomeFollower(n, term) else n
  }

  function HandleRequestVote(n: Node, req: RequestVoteRequest): (Node, RequestVoteResponse) {
    var n1 := SeeTerm(n, req.term);
    if GrantsVote(n1, req) then
      (n1.(votedFor := req.candidateId), RequestVoteResponse(n1.currentTerm, true))
    else
      (n1, RequestVoteResponse(n1.currentTerm, false))
  }

  function StartLeader(n: Node): Node {
    n.(state := Leader,
       nextIndex := n.nextIndex + map p | p in n.peers :: |n.log|,
       matchIndex := n.matchIndex + map p | p in n.peers :: -1)
  }

  function CountVote(n: Node, race: nat, voter: int): Node
    requires race < |n.races|
  {
    n.(races := n.races[race := n.races[race].(voters := n.races[race].voters + {voter})])
  }

  predicate WinsRace(n: Node, race: nat) {
    race < |n.races| && 2 * |n.races[race].voters| > |n.peers| + 1
  }

  // Counting a vote that wins the race spawns a start of leadership, which takes no lock.
  function CountAndSpawn(n: Node, race: nat, voter: int): Node
    requires race < |n.races|
  {
    var n1 := CountVote(n, race, voter);
    if WinsRace(n1, race) then n1.(starting := n1.starting + multiset{race}) else n1
  }

  // A reply to a vote request of the given race.
  function HandleVoteReply(n: Node, voter: int, race: nat, resp: RequestVoteResponse): Node
    requires race < |n.races|
  {
    if n.state == Leader then StartLeader(n)
    else if n.state == Follower then n
    else if resp.term > n.races[race].term then BecomeFollower(n, resp.term)
    else if resp.term == n.races[race].term && resp.voteGranted then CountAndSpawn(n, race, voter)
    else n
  }

  // A start of leadership that a winning vote spawned runs, whatever happened in between.
  function RunStart(n: Node, race: nat): Node {
    StartLeader(n).(starting := n.starting - multiset{race})
  }

  function Submit(n: Node, command: Command): Node {
    if n.state == Leader then n.(log := n.log + [LogEntry(command, n.currentTerm)]) else n
  }

  // A leader begins a round of requests, one for every peer. Each is built in a section of its own.
  function BeginRound(n: Node): Node { n.(rounds := n.rounds + {n.currentTerm}) }

  function BuildAppendRequest(n: Node, peer: int, term: int): AppendEntriesRequest
    requires 0 <= Lookup(n.nextIndex, peer) <= |n.log|
  {
    var ni := Lookup(n.nextIndex, peer);
    AppendEntriesRequest(term, n.id, ni - 1, if ni > 0 then n.log[ni - 1].term else -1, n.log[ni..], n.commitIndex)
  }

  // Does the log hold an entry at prevLogIndex whose term matches?
  predicate Accepts(n: Node, req: AppendEntriesRequest) {
    req.prevLogIndex == -1 ||
    (0 <= req.prevLogIndex < |n.log| && req.prevLogTerm == n.log[req.prevLogIndex].term)
  }

  function Min(a: int, b: int): int { if a < b then a else b }

  // The state in which an AppendEntries request of the current term is examined: any role but
  // Follower steps down first, and stepping down forgets the vote even though the term stays.
  function StepDown(n: Node, term: int): Node {
    if n.state != Follower then BecomeFollower(n, term) else n
  }

  function TakeEntries(n: Node, req: AppendEntriesRequest): Node
    requires Accepts(n, req)
  {
    var log := Splice(n.log, req.prevLogIndex + 1, req.entries);
    n.(log := log,
       commitIndex := if req.leaderCommit > n.commitIndex then Min(req.leaderCommit, |log| - 1) else n.commitIndex)
  }

  function HandleAppendEntries(n: Node, req: AppendEntriesRequest): (Node, AppendEntriesResponse) {
    var n1 := SeeTerm(n, req.term);
    if req.term != n1.currentTerm then (n1, AppendEntriesResponse(n1.currentTerm, false, 0, 0))
    else
      var n2 := StepDown(n1, req.term);
      if Accepts(n2, req) then (TakeEntries(n2, req), AppendEntriesResponse(n2.currentTerm, true, 0, 0))
      else (n2, AppendEntriesResponse(n2.currentTerm, false, 0, 0))
  }

  // The peers known to hold the log up to index i.
  function Matched(n: Node, i: int): set<int> {
    set p | p in n.peers && Lookup(n.matchIndex, p) >= i
  }

  // May a leader commit up to index i: an entry of its own term, held by a majority.
  predicate Committable(n: Node, i: int) {
    && 0 <= i < |n.log|
    && n.log[i].term == n.currentTerm
    && 2 * (|Matched(n, i)| + 1) > |n.peers| + 1
  }

  // The greatest committable index in (commitIndex, top], or commitIndex when there is none.
  function AdvanceTo(n: Node, top: int): int
    decreases top - n.commitIndex
  {
    if top <= n.commitIndex then n.commitIndex
    else if Committable(n, top) then top
    else AdvanceTo(n, top - 1)
  }

  function AdvanceCommit(n: Node): int { AdvanceTo(n, |n.log| - 1) }

  // The last index below `top` whose entry has the given term, or -1.
  function LastIndexOfTerm(log: Log, top: nat, term: int): int
    requires top <= |log|
  {
    if top == 0 then -1
    else if log[top - 1].term == term then top - 1
    else LastIndexOfTerm(log, top - 1, term)
  }

  // Where to resume after a rejection.
  function Rewind(log: Log, resp: AppendEntriesResponse): int {
    if resp.conflictTerm >= 0 && LastIndexOfTerm(log, |log|, resp.conflictTerm) >= 0
    then LastIndexOfTerm(log, |log|, resp.conflictTerm) + 1
    else resp.conflictIndex
  }

  // The number of entries the sender of a request had up to its end.
  function EndOf(req: AppendEntriesRequest): int { req.prevLogIndex + 1 + |req.entries| }

  function Acknowledge(n: Node, peer: int, end: int): Node {
    n.(nextIndex := n.nextIndex[peer := end], matchIndex := n.matchIndex[peer := end - 1])
  }

  function HandleAppendReply(n: Node, peer: int, req: AppendEntriesRequest, resp: AppendEntriesResponse): Node {
    if resp.term > n.currentTerm then BecomeFollower(n, resp.term)
    else if n.state == Leader && req.term == resp.term then
      if resp.success then
        var n1 := Acknowledge(n, peer, EndOf(req));
        n1.(commitIndex := AdvanceCommit(n1))
      else n.(nextIndex := n.nextIndex[peer := Rewind(n.log, resp)])
    else n
  }

  // ---------- four checks that the code leaves out ----------

  // A candidate does not step down into a term that is behind its own.
  predicate KeepsItsTerm(n: Node, race: nat, resp: RequestVoteResponse)
    requires race < |n.races|
  {
    n.state == Candidate && resp.term > n.races[race].term ==> resp.term >= n.currentTerm
  }

  // A start of leadership finds a leader, or a candidate whose present race is won.
  predicate MayStart(n: Node) {
    n.state == Leader || (n.state == Candidate && |n.races| > 0 && |n.races| - 1 in n.starting)
  }

  // A request of a round is built by a server that still leads the term of the round.
  predicate LeadsRound(n: Node, roundTerm: int) { n.state == Leader && n.currentTerm == roundTerm }

  // A leader counts an acknowledgement only in the term of the request it answers.
  predicate CountsOwnTerm(n: Node, req: AppendEntriesRequest, resp: AppendEntriesResponse) {
    n.state == Leader && resp.success && req.term == resp.term && resp.term <= n.currentTerm ==>
      n.currentTerm == req.term
  }

  // The entries handed to the apply stream on one wake-up.
  function NewlyCommitted(n: Node): seq<CommitEntry>
    requires 0 <= n.lastApplied + 1 && n.commitIndex < |n.log|
  {
    if n.commitIndex > n.lastApplied then
      seq(n.commitIndex - n.lastApplied, i requires 0 <= i < n.commitIndex - n.lastApplied =>
        CommitEntry(n.log[n.lastApplied + 1 + i].command, n.lastApplied + 1 + i, n.currentTerm))
    else []
  }

  function SendCommits(n: Node): Node {
    if n.commitIndex > n.lastApplied then n.(lastApplied := n.commitIndex) else n
  }
}
