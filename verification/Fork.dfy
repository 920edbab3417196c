/**
 How far one skipped check goes: a run in which a single step fails its check, a leader that counts
 one acknowledgement of an earlier term, and in the end two servers have handed different commands
 to the apply stream at the same index.
 */
module Fork {
  import opened Chat
  import opened Logs
  import opened Consensus
  import opened Protocol
  import opened Scenarios
  import opened Limits

  function Z(): LogEntry { LogEntry(Other("z"), 2) }

  // A server of the cluster that has committed nothing.
  predicate Plain(n: Node, id: int, term: int, log: Log) {
    && id in FIVE && n.id == id && n.peers == FIVE - {id} && n.currentTerm == term && n.log == log
    && n.commitIndex == -1 && n.lastApplied == -1
  }

  predicate Follows(n: Node, id: int, term: int, log: Log) { Plain(n, id, term, log) && n.state == Follower }

  // ---------- everybody but server 2 has the entry of term 2 ----------

  lemma TakesFirstEntry(n: Node, id: int)
    requires Follows(n, id, 2, [])
    ensures HandleAppendEntries(n, SecondRequest()).0 == n.(log := [Z()])
  {
    assert [][..0] + OneEntry()[0..] == [Z()];
  }

  // Server 2 is left behind in term 1.
  ghost predicate LeftBehind(g: Global)
    requires g.nodes.Keys == FIVE
  {
    && g.nodes[2].currentTerm == 1 && g.nodes[2].log == TwoEntries() && g.nodes[2].state == Follower
    && AppendReturn(2, LateRequest(), LateReply()) in g.net
  }

  ghost predicate NothingApplied(g: Global)
    requires g.apps.Keys == FIVE
  {
    forall s | s in FIVE :: g.apps[s] == App([], 0, map[])
  }

  lemma SecondTermReached() returns (g: Global)
    ensures Cluster(-1, g) && LeftBehind(g) && NothingApplied(g)
    ensures Follows(g.nodes[1], 1, 2, [Z()])
    ensures Follows(g.nodes[3], 3, 2, []) && Follows(g.nodes[5], 5, 2, [])
    ensures g.nodes[4] == BeginRound(SecondLeaderNode())
  {
    g := AcknowledgedReached();
    g := OvertakenReached(g);
  }

  lemma SpreadReached() returns (g: Global)
    ensures Cluster(-1, g) && LeftBehind(g) && NothingApplied(g)
    ensures Follows(g.nodes[1], 1, 2, [Z()]) && Follows(g.nodes[3], 3, 2, [Z()])
    ensures Plain(g.nodes[4], 4, 2, [Z()]) && Follows(g.nodes[5], 5, 2, [Z()])
  {
    g := SecondTermReached();
    SecondRequestBuilt(3);
    SecondRequestBuilt(5);
    TakesFirstEntry(g.nodes[3], 3);
    TakesFirstEntry(g.nodes[5], 5);
    var n := g.nodes[4];
    assert n.state == Leader && 2 in n.rounds && Plain(n, 4, 2, [Z()]);
    g := ReplicateReached(-1, g, 4, 3);
    g := ReplicateReached(-1, g, 4, 5);
  }

  // ---------- a leader with two entries, the second of its own term ----------

  predicate Ready(n: Node, id: int, term: int, last: LogEntry) {
    && Plain(n, id, term, [Z(), last]) && n.state == Leader && term in n.rounds && last.term == term > 2
    && forall p | p in n.peers :: Lookup(n.nextIndex, p) == 1 && Lookup(n.matchIndex, p) == -1
  }

  lemma ServingIsReady(n: Node, id: int, term: int, p: int, q: int, command: Command)
    requires Plain(n, id, term, [Z()]) && term >= 2
    ensures Ready(Serving(Leading(n, p, q), command), id, term + 1, LogEntry(command, term + 1))
  {
  }

  // What such a leader sends to everybody.
  function LastRequest(id: int, last: LogEntry): AppendEntriesRequest {
    AppendEntriesRequest(last.term, id, 0, 2, [last], -1)
  }

  function Yes(term: int): AppendEntriesResponse { AppendEntriesResponse(term, true, 0, 0) }

  lemma LastRequestBuilt(n: Node, id: int, term: int, last: LogEntry, p: int)
    requires Ready(n, id, term, last) && p in n.peers
    ensures BuildAppendRequest(n, p, term) == LastRequest(id, last)
  {
    assert [Z(), last][1..] == [last];
  }

  lemma LastRequestTaken(n: Node, id: int, term: int, log: Log, sender: int, last: LogEntry)
    requires Follows(n, id, term, log) && term <= last.term
    requires log == [Z()] || (|log| == 2 && log[0] == Z() && log[1].term != last.term)
    ensures var (n', resp) := HandleAppendEntries(n, LastRequest(sender, last));
            resp == Yes(last.term) && Follows(n', id, last.term, [Z(), last])
  {
    assert Overlap(log, 1, [last]) == 0;
    assert log[..1] + [last][0..] == [Z(), last];
  }

  // The leader after f acknowledged both of its entries.
  function Matching(n: Node, f: int): Node {
    n.(nextIndex := n.nextIndex[f := 2], matchIndex := n.matchIndex[f := 1])
  }

  // With one acknowledgement it commits nothing, with a second one it commits both entries.
  lemma FirstAck(n: Node, id: int, term: int, last: LogEntry, f: int,
                 req: AppendEntriesRequest, resp: AppendEntriesResponse)
    requires Ready(n, id, term, last) && f in n.peers
    requires resp.success && req.term == resp.term <= term && EndOf(req) == 2
    ensures HandleAppendReply(n, f, req, resp) == Matching(n, f)
  {
    var n1 := Matching(n, f);
    assert Acknowledge(n, f, 2) == n1;
    assert Matched(n1, 1) == {f};
    FivePeers(id);
    assert !Committable(n1, 1) && !Committable(n1, 0);
    assert AdvanceTo(n1, 0) == -1;
    assert AdvanceTo(n1, 1) == -1;
  }

  lemma SecondAck(n: Node, id: int, term: int, last: LogEntry, e: int, f: int,
                  req: AppendEntriesRequest, resp: AppendEntriesResponse)
    requires Ready(n, id, term, last) && e in n.peers && f in n.peers && e != f
    requires resp.success && req.term == resp.term <= term && EndOf(req) == 2
    ensures HandleAppendReply(Matching(n, e), f, req, resp) == Matching(Matching(n, e), f).(commitIndex := 1)
  {
    var n1 := Matching(Matching(n, e), f);
    assert Acknowledge(Matching(n, e), f, 2) == n1;
    assert Matched(n1, 1) == {e, f};
    FivePeers(id);
    assert Committable(n1, 1);
  }

  // ---------- server 1 leads term 3 and counts an acknowledgement of term 1 ----------

  function W(): LogEntry { LogEntry(Other("w"), 3) }

  // The servers that will decide term 4.
  ghost predicate RestOk(g: Global, fourth: Log)
    requires g.nodes.Keys == FIVE
  {
    && LeftBehind(g) && Follows(g.nodes[3], 3, 2, [Z()])
    && Follows(g.nodes[4], 4, 3, fourth) && Follows(g.nodes[5], 5, 3, [Z()])
  }

  lemma ThirdTermReached() returns (g: Global)
    ensures Cluster(-1, g) && RestOk(g, [Z()]) && NothingApplied(g) && Ready(g.nodes[1], 1, 3, W())
  {
    g := SpreadReached();
    ServingIsReady(g.nodes[1], 1, 2, 4, 5, Other("w"));
    g := LeadReached(-1, g, 1, 4, 5);
    g := ServeReached(-1, g, 1, Other("w"));
  }

  lemma FourthAcks() returns (g: Global)
    ensures Cluster(-1, g) && RestOk(g, [Z(), W()]) && NothingApplied(g) && Ready(g.nodes[1], 1, 3, W())
    ensures AppendReturn(4, LastRequest(1, W()), Yes(3)) in g.net
  {
    g := ThirdTermReached();
    LastRequestBuilt(g.nodes[1], 1, 3, W(), 4);
    LastRequestTaken(g.nodes[4], 4, 3, [Z()], 1, W());
    g := ReplicateReached(-1, g, 1, 4);
  }

  lemma MatchedReached() returns (g: Global, n: Node)
    ensures Cluster(-1, g) && RestOk(g, [Z(), W()]) && NothingApplied(g)
    ensures Ready(n, 1, 3, W()) && g.nodes[1] == Matching(n, 4)
  {
    g := FourthAcks();
    n := g.nodes[1];
    FirstAck(n, 1, 3, W(), 4, LastRequest(1, W()), Yes(3));
    g := AppendReplyReached(-1, g, 1, 4, LastRequest(1, W()), Yes(3));
  }

  predicate Committed(n: Node, last: LogEntry) { n.log == [Z(), last] && n.commitIndex == 1 && n.lastApplied == -1 }

  // The one step that fails its check: server 1 counts itself and two servers for its entry of term
  // 3, which server 2 never saw.
  lemma MisledReached() returns (k: int, g: Global)
    ensures k >= 0 && Cluster(k, g) && RestOk(g, [Z(), W()]) && NothingApplied(g) && Committed(g.nodes[1], W())
  {
    var n;
    g, n := MatchedReached();
    SecondAck(n, 1, 3, W(), 4, 2, LateRequest(), LateReply());
    k := ReachSkipping(g, ReceiveAppendReply(1, 2, LateRequest(), LateReply()));
    g := AfterAppendReply(g, 1, 2, LateRequest(), LateReply());
  }

  // Both entries of a server go to its stream.
  lemma EmitsBoth(n: Node, last: LogEntry)
    requires Committed(n, last)
    ensures |NewlyCommitted(n)| == 2 && NewlyCommitted(n)[1].command == last.command
  {
  }

  ghost predicate StreamEnds(g: Global, s: int, last: LogEntry)
    requires g.apps.Keys == FIVE && s in FIVE
  {
    |g.apps[s].emitted| == 2 && g.apps[s].emitted[1].command == last.command
  }

  lemma FirstStream() returns (k: int, g: Global)
    ensures k >= 0 && Cluster(k, g) && RestOk(g, [Z(), W()]) && StreamEnds(g, 1, W()) && g.apps[5].emitted == []
  {
    k, g := MisledReached();
    EmitsBoth(g.nodes[1], W());
    g := EmitReached(k, g, 1);
  }

  // ---------- server 5 leads term 4 without the entry of term 3 ----------

  function V(): LogEntry { LogEntry(Other("v"), 4) }

  ghost predicate OneStream(g: Global)
    requires g.apps.Keys == FIVE
  {
    StreamEnds(g, 1, W()) && g.apps[5].emitted == []
  }

  lemma FourthTermReached() returns (k: int, g: Global)
    ensures k >= 0 && Cluster(k, g) && OneStream(g) && Ready(g.nodes[5], 5, 4, V())
    ensures Follows(g.nodes[3], 3, 4, [Z()]) && Follows(g.nodes[4], 4, 3, [Z(), W()])
  {
    k, g := FirstStream();
    ServingIsReady(g.nodes[5], 5, 3, 3, 2, Other("v"));
    g := LeadReached(k, g, 5, 3, 2);
    g := ServeReached(k, g, 5, Other("v"));
  }

  lemma TwoAcksReached() returns (k: int, g: Global)
    ensures k >= 0 && Cluster(k, g) && OneStream(g) && Ready(g.nodes[5], 5, 4, V())
    ensures AppendReturn(3, LastRequest(5, V()), Yes(4)) in g.net
    ensures AppendReturn(4, LastRequest(5, V()), Yes(4)) in g.net
  {
    k, g := FourthTermReached();
    var n := g.nodes[5];
    LastRequestBuilt(n, 5, 4, V(), 3);
    LastRequestBuilt(n, 5, 4, V(), 4);
    LastRequestTaken(g.nodes[3], 3, 4, [Z()], 5, V());
    LastRequestTaken(g.nodes[4], 4, 3, [Z(), W()], 5, V());
    g := ReplicateReached(k, g, 5, 3);
    g := ReplicateReached(k, g, 5, 4);
  }

  lemma SecondCommitReached() returns (k: int, g: Global)
    ensures k >= 0 && Cluster(k, g) && OneStream(g) && Committed(g.nodes[5], V())
  {
    k, g := TwoAcksReached();
    var n := g.nodes[5];
    FirstAck(n, 5, 4, V(), 3, LastRequest(5, V()), Yes(4));
    SecondAck(n, 5, 4, V(), 3, 4, LastRequest(5, V()), Yes(4));
    g := AppendReplyReached(k, g, 5, 3, LastRequest(5, V()), Yes(4));
    assert g.nodes[5] == Matching(n, 3);
    g := AppendReplyReached(k, g, 5, 4, LastRequest(5, V()), Yes(4));
  }

  // Every step but one makes its check, and yet state machine safety fails.
  lemma DifferentCommandsApplied() returns (k: int, g: Global)
    ensures Cluster(k, g) && |g.apps[1].emitted| == 2 && |g.apps[5].emitted| == 2
    ensures g.apps[1].emitted[1].command != g.apps[5].emitted[1].command
  {
    k, g := SecondCommitReached();
    EmitsBoth(g.nodes[5], V());
    g := EmitReached(k, g, 5);
    assert "w" != "v" by { assert "w"[0] != "v"[0]; }
  }
}
