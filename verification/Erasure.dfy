/**
 A second way in which a request that fails its check does harm: it carries no entry ahead of its
 term, and yet it takes away an entry that its receiver acknowledged in that very term.
 */
module Erasure {
  import opened Chat
  import opened Logs
  import opened Consensus
  import opened Protocol
  import opened Scenarios

  function EntryA(): Log { [LogEntry(Other("a"), 1)] }

  function EntryX(): Log { [LogEntry(Other("x"), 2)] }

  // ---------- server 5 leads term 1, and server 4 takes its entry ----------

  function FirstLeader(): Node { Serving(Leading(Fresh(5), 3, 4), Other("a")) }

  function FirstRequest(): AppendEntriesRequest { AppendEntriesRequest(1, 5, -1, -1, EntryA(), -1) }

  lemma FirstRequestBuilt()
    ensures Lookup(FirstLeader().nextIndex, 4) == 0 && BuildAppendRequest(FirstLeader(), 4, 1) == FirstRequest()
    ensures HandleAppendEntries(Voted(Fresh(4), 1, 5), FirstRequest()).0 == Voted(Fresh(4), 1, 5).(log := EntryA())
  {
    assert EntryA()[0..] == EntryA();
    assert [][..0] + EntryA()[0..] == EntryA();
  }

  lemma FirstServing() returns (g: Global)
    ensures Cluster(-1, g) && g.nodes[5] == FirstLeader()
    ensures g.nodes[3] == Voted(Fresh(3), 1, 5) && g.nodes[4] == Voted(Fresh(4), 1, 5)
    ensures g.nodes[1] == Fresh(1) && g.nodes[2] == Fresh(2)
  {
    StartIsReached();
    g := LeadReached(-1, Start(), 5, 3, 4);
    g := ServeReached(-1, g, 5, Other("a"));
  }

  lemma FirstReached() returns (g: Global)
    ensures Cluster(-1, g) && g.nodes[5] == FirstLeader()
    ensures g.nodes[3] == Voted(Fresh(3), 1, 5) && g.nodes[4] == Voted(Fresh(4), 1, 5).(log := EntryA())
    ensures g.nodes[1] == Fresh(1) && g.nodes[2] == Fresh(2)
  {
    g := FirstServing();
    FirstRequestBuilt();
    g := ReplicateReached(-1, g, 5, 4);
  }

  // ---------- server 1 leads term 2, and server 2 acknowledges its entry ----------

  function SecondLeader(): Node { Serving(Leading(StartElection(Fresh(1)), 2, 3), Other("x")) }

  function SecondRequest(): AppendEntriesRequest { AppendEntriesRequest(2, 1, -1, -1, EntryX(), -1) }

  // A follower in term 2 with the entry of term 2.
  predicate Holds(n: Node) {
    n.currentTerm == 2 && n.state == Follower && n.log == EntryX() && n.commitIndex == -1
  }

  lemma SecondRequestBuilt()
    ensures Lookup(SecondLeader().nextIndex, 2) == 0 && BuildAppendRequest(SecondLeader(), 2, 2) == SecondRequest()
    ensures var (n, resp) := HandleAppendEntries(Voted(Fresh(2), 2, 1), SecondRequest());
            Holds(n) && resp == AppendEntriesResponse(2, true, 0, 0)
  {
    assert EntryX()[0..] == EntryX();
    assert [][..0] + EntryX()[0..] == EntryX();
  }

  ghost predicate Acknowledged(g: Global) {
    && AppendCall(2, SecondRequest()) in g.net
    && AppendReturn(2, SecondRequest(), AppendEntriesResponse(2, true, 0, 0)) in g.net
  }

  lemma SecondServing() returns (g: Global)
    ensures Cluster(-1, g) && g.nodes[1] == SecondLeader() && g.nodes[2] == Voted(Fresh(2), 2, 1)
    ensures g.nodes[3] == Voted(Voted(Fresh(3), 1, 5), 2, 1)
    ensures g.nodes[4] == Voted(Fresh(4), 1, 5).(log := EntryA()) && g.nodes[5] == FirstLeader()
  {
    g := FirstReached();
    g := TimeoutReached(-1, g, 1);
    assert g.nodes[1] == StartElection(Fresh(1));
    g := LeadReached(-1, g, 1, 2, 3);
    g := ServeReached(-1, g, 1, Other("x"));
  }

  lemma SecondReached() returns (g: Global)
    ensures Cluster(-1, g) && g.nodes[1] == SecondLeader() && Holds(g.nodes[2]) && Acknowledged(g)
    ensures g.nodes[3] == Voted(Voted(Fresh(3), 1, 5), 2, 1)
    ensures g.nodes[4] == Voted(Fresh(4), 1, 5).(log := EntryA()) && g.nodes[5] == FirstLeader()
  {
    g := SecondServing();
    SecondRequestBuilt();
    g := ReplicateReached(-1, g, 1, 2);
  }

  // ---------- server 4 leads term 3 with the entry of term 1 ----------

  function Challenger(): Node { StartElection(Voted(Fresh(4), 1, 5).(log := EntryA())) }

  function ThirdLeader(): Node { BeginRound(Leading(Challenger(), 3, 5)) }

  lemma ChallengerReached() returns (g: Global)
    ensures Cluster(-1, g) && g.nodes[1] == SecondLeader() && Holds(g.nodes[2]) && Acknowledged(g)
    ensures g.nodes[3] == Voted(Voted(Fresh(3), 1, 5), 2, 1)
    ensures g.nodes[4] == Challenger() && g.nodes[5] == FirstLeader()
  {
    g := SecondReached();
    g := TimeoutReached(-1, g, 4);
  }

  lemma ThirdReached() returns (g: Global)
    ensures Cluster(-1, g) && g.nodes[1] == SecondLeader() && Holds(g.nodes[2]) && Acknowledged(g)
    ensures g.nodes[4] == ThirdLeader()
  {
    g := ChallengerReached();
    g := LeadReached(-1, g, 4, 3, 5);
    g := RoundReached(-1, g, 4);
  }

  // Its first request to server 1 is rejected, and the second one carries the whole log.
  function RejectedRequest(): AppendEntriesRequest { AppendEntriesRequest(3, 4, 0, 1, [], -1) }

  function WholeRequest(): AppendEntriesRequest { AppendEntriesRequest(3, 4, -1, -1, EntryA(), -1) }

  function Rewound(): Node { ThirdLeader().(nextIndex := ThirdLeader().nextIndex[1 := 0]) }

  lemma RejectedRequestBuilt()
    ensures Lookup(ThirdLeader().nextIndex, 1) == 1 && BuildAppendRequest(ThirdLeader(), 1, 3) == RejectedRequest()
    ensures HandleAppendEntries(SecondLeader(), RejectedRequest())
            == (BecomeFollower(SecondLeader(), 3), AppendEntriesResponse(3, false, 0, 0))
    ensures HandleAppendReply(ThirdLeader(), 1, RejectedRequest(), AppendEntriesResponse(3, false, 0, 0)) == Rewound()
  {
    assert EntryA()[1..] == [];
    assert LastIndexOfTerm(EntryA(), 1, 0) == -1;
  }

  lemma RejectedReached() returns (g: Global)
    ensures Cluster(-1, g) && g.nodes[1] == BecomeFollower(SecondLeader(), 3) && g.nodes[4] == ThirdLeader()
    ensures Holds(g.nodes[2]) && Acknowledged(g)
    ensures AppendReturn(1, RejectedRequest(), AppendEntriesResponse(3, false, 0, 0)) in g.net
  {
    g := ThirdReached();
    RejectedRequestBuilt();
    g := ReplicateReached(-1, g, 4, 1);
  }

  lemma RewoundReached() returns (g: Global)
    ensures Cluster(-1, g) && g.nodes[1] == BecomeFollower(SecondLeader(), 3) && g.nodes[4] == Rewound()
    ensures Holds(g.nodes[2]) && Acknowledged(g)
  {
    g := RejectedReached();
    RejectedRequestBuilt();
    g := AppendReplyReached(-1, g, 4, 1, RejectedRequest(), AppendEntriesResponse(3, false, 0, 0));
  }

  function Overtaken(): Node { BecomeFollower(SecondLeader(), 3).(log := EntryA()) }

  lemma WholeRequestBuilt()
    ensures Lookup(Rewound().nextIndex, 1) == 0 && BuildAppendRequest(Rewound(), 1, 3) == WholeRequest()
    ensures HandleAppendEntries(BecomeFollower(SecondLeader(), 3), WholeRequest()).0 == Overtaken()
  {
    assert EntryA()[0..] == EntryA();
    assert Overlap(EntryX(), 0, EntryA()) == 0;
    assert EntryX()[..0] + EntryA()[0..] == EntryA();
  }

  lemma OvertakenReached() returns (g: Global)
    ensures Cluster(-1, g) && g.nodes[1] == Overtaken() && Holds(g.nodes[2]) && Acknowledged(g)
  {
    g := RewoundReached();
    WholeRequestBuilt();
    g := ReplicateReached(-1, g, 4, 1);
  }

  // ---------- the pending round of term 2 goes on ----------

  function StrayRequest(): AppendEntriesRequest { AppendEntriesRequest(2, 1, -1, -1, EntryA(), -1) }

  lemma StrayRequestBuilt()
    ensures 2 in Overtaken().rounds && 2 in Overtaken().peers && Lookup(Overtaken().nextIndex, 2) == 0
    ensures BuildAppendRequest(Overtaken(), 2, 2) == StrayRequest()
  {
    assert EntryA()[0..] == EntryA();
  }

  lemma StrayRequestTaken(n: Node)
    requires Holds(n)
    ensures HandleAppendEntries(n, StrayRequest()).1.success
    ensures HandleAppendEntries(n, StrayRequest()).0 == n.(log := EntryA())
  {
    assert Overlap(EntryX(), 0, EntryA()) == 0;
    assert EntryX()[..0] + EntryA()[0..] == EntryA();
  }

  // The order of the two requests of term 2 decides which entry survives.
  lemma OrderMatters(n: Node)
    requires Holds(n)
    ensures TakeEntries(TakeEntries(n, SecondRequest()), StrayRequest()).log == EntryA()
    ensures TakeEntries(TakeEntries(n, StrayRequest()), SecondRequest()).log == EntryX()
  {
    assert Overlap(EntryX(), 0, EntryX()) == 1 + Overlap(EntryX(), 1, EntryX()[1..]);
    assert Overlap(EntryX(), 0, EntryA()) == 0 && Overlap(EntryA(), 0, EntryX()) == 0;
    assert EntryX()[..0] + EntryA()[0..] == EntryA();
    assert EntryA()[..0] + EntryX()[0..] == EntryX();
  }

  // The state before the stray request is built, and the state after.
  lemma StrayReached() returns (g: Global, step: Step)
    ensures Cluster(-1, g) && Enabled(g, step) && !Guarded(g, step) && Acknowledged(g)
    ensures var g1 := Next(g, step);
            && 2 in g1.nodes && 2 in g1.apps && Holds(g1.nodes[2])
            && AppendCall(2, StrayRequest()) in g1.net
  {
    g := OvertakenReached();
    StrayRequestBuilt();
    step := Step.SendAppend(1, 2, 2);
  }

  // What the stray request does to the server that acknowledged entry x in term 2.
  predicate Erases(n: Node, n': Node) {
    && n'.currentTerm == SecondRequest().term && !(SecondRequest().entries <= n'.log)
    && Accepts(n, SecondRequest()) && Accepts(n, StrayRequest())
    && TakeEntries(TakeEntries(n, SecondRequest()), StrayRequest())
       != TakeEntries(TakeEntries(n, StrayRequest()), SecondRequest())
  }

  lemma StrayRequestErases(n: Node)
    requires Holds(n)
    ensures Erases(n, HandleAppendEntries(n, StrayRequest()).0)
  {
    StrayRequestTaken(n);
    OrderMatters(n);
    assert EntryA()[0] != EntryX()[0];
  }

  // A request of term 2 that carries no entry ahead of term 2 makes server 2, still in term 2, drop
  // the entry that it acknowledged in term 2; and two requests of one term that a server accepts no
  // longer commute.
  lemma AcknowledgedEntryErasedWithoutGuard() returns (g: Global, step: Step)
    ensures Cluster(-1, g) && Enabled(g, step) && !Guarded(g, step)
    ensures Acknowledged(g) && forall e | e in StrayRequest().entries :: e.term <= StrayRequest().term
    ensures var g1, receive := Next(g, step), ReceiveAppend(2, StrayRequest());
            && Enabled(g1, receive) && Guarded(g1, receive) && 2 in g1.nodes && 2 in Next(g1, receive).nodes
            && Erases(g1.nodes[2], Next(g1, receive).nodes[2])
  {
    g, step := StrayReached();
    StrayRequestErases(Next(g, step).nodes[2]);
  }
}
