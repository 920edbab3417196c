/**
 Which groups a user is in after any sequence of committed commands, read off the commands.
 */
module Membership {
  import opened Chat
  import opened Options
  import opened ChatMachine
  import opened ChatProofs

  predicate Enters(c: Command, name: string, u: UInt32) {
    c.Join? && c.user.id == u && c.newGroup == name
  }

  // A join of another group and a logout both leave the group that the command calls current.
  predicate Leaves(c: Command, name: string, u: UInt32) {
    (c.Join? || c.Logout?) && c.user.id == u && c.currGroup == name
  }

  // The name under which a user joined the group for the last time.
  function LastName(cs: seq<Command>, name: string, u: UInt32): Option<string> {
    if cs == [] then None
    else if Enters(cs[|cs| - 1], name, u) then Some(cs[|cs| - 1].user.name)
    else LastName(cs[..|cs| - 1], name, u)
  }

  // Did the user leave the group after joining it for the last time?
  predicate LeftSince(cs: seq<Command>, name: string, u: UInt32) {
    cs != [] && !Enters(cs[|cs| - 1], name, u) &&
    (Leaves(cs[|cs| - 1], name, u) || LeftSince(cs[..|cs| - 1], name, u))
  }

  // A user who joined without a name cannot be removed.
  predicate StillIn(cs: seq<Command>, name: string, u: UInt32) {
    LastName(cs, name, u) == Some("") || (LastName(cs, name, u).Some? && !LeftSince(cs, name, u))
  }

  predicate MemberOf(s: Store, name: string, u: UInt32) {
    HasGroup(s, name) && u in GroupOf(s, name).participants
  }

  ghost predicate MemberIs(cs: seq<Command>, name: string, u: UInt32, s: Store) {
    && (MemberOf(s, name, u) <==> StillIn(cs, name, u))
    && (MemberOf(s, name, u) ==> Some(GroupOf(s, name).participants[u]) == LastName(cs, name, u))
  }

  lemma MemberStep(init: seq<Command>, c: Command, randomId: UInt32, name: string, u: UInt32, s: Store)
    requires MemberIs(init, name, u, s) && !TakesKey(c, name)
    ensures MemberIs(init + [c], name, u, Apply(s, c, randomId))
  {
    assert (init + [c])[..|init|] == init;
  }

  // Who is a participant of a group after any commands, and under which name.
  lemma {:induction false} MemberAfter(cs: seq<Command>, ids: seq<UInt32>, name: string, u: UInt32)
    requires |ids| == |cs|
    ensures MemberIs(Since(cs, name), name, u, Fold(cs, ids))
  {
    if cs != [] {
      var n := |cs| - 1;
      var s := Fold(cs[..n], ids[..n]);
      if TakesKey(cs[n], name) {
        TakenKey(s, cs[n], ids[n], name);
      } else {
        MemberAfter(cs[..n], ids[..n], name, u);
        MemberStep(Since(cs[..n], name), cs[n], ids[n], name, u, s);
      }
    }
  }

  // ---------- one group at a time ----------

  // The group a user joined last, unless the user logged out since.
  function Current(cs: seq<Command>, u: UInt32): Option<string> {
    if cs == [] then None
    else
      var c := cs[|cs| - 1];
      if c.Join? && c.user.id == u then Some(c.newGroup)
      else if c.Logout? && c.user.id == u then None
      else Current(cs[..|cs| - 1], u)
  }

  // A join or a logout names the group that its user is in.
  predicate TellsTruth(before: seq<Command>, c: Command) {
    (c.Join? || c.Logout?) && Current(before, c.user.id).Some? ==> c.currGroup == Current(before, c.user.id).value
  }

  predicate AllTellTruth(cs: seq<Command>) {
    cs == [] || (AllTellTruth(cs[..|cs| - 1]) && TellsTruth(cs[..|cs| - 1], cs[|cs| - 1]))
  }

  lemma {:induction false} CurrentIsStillIn(cs: seq<Command>, name: string, u: UInt32)
    requires Current(cs, u) == Some(name)
    ensures LastName(cs, name, u).Some? && !LeftSince(cs, name, u)
  {
    if !Enters(cs[|cs| - 1], name, u) {
      CurrentIsStillIn(cs[..|cs| - 1], name, u);
    }
  }

  lemma {:induction false} MovedOnHasLeft(cs: seq<Command>, name: string, u: UInt32)
    requires AllTellTruth(cs) && LastName(cs, name, u).Some? && Current(cs, u) != Some(name)
    ensures LeftSince(cs, name, u)
  {
    var init := cs[..|cs| - 1];
    if Current(init, u) != Some(name) {
      MovedOnHasLeft(init, name, u);
    }
  }

  // Where joins and logouts tell the truth, a user is in a group exactly if it is the one joined
  // last, or if the user joined it without giving a name.
  lemma MemberIff(cs: seq<Command>, ids: seq<UInt32>, name: string, u: UInt32)
    requires |ids| == |cs| && AllTellTruth(cs) && Since(cs, name) == cs
    ensures MemberOf(Fold(cs, ids), name, u) <==> Current(cs, u) == Some(name) || LastName(cs, name, u) == Some("")
  {
    MemberAfter(cs, ids, name, u);
    if Current(cs, u) == Some(name) {
      CurrentIsStillIn(cs, name, u);
    } else if LastName(cs, name, u).Some? {
      MovedOnHasLeft(cs, name, u);
    }
  }

  // No group carries the name of a user's key.
  predicate NamesAreFree(cs: seq<Command>) {
    forall i | 0 <= i < |cs| && cs[i].Join? :: KeyIsFree(cs, cs[i].newGroup)
  }

  // Every user is a participant of exactly the group joined last, or of none after a logout.
  ghost predicate OneGroupEach(cs: seq<Command>, s: Store) {
    forall name, u: UInt32 :: MemberOf(s, name, u) <==> Current(cs, u) == Some(name)
  }

  // A user without a name has moved on from a group.
  ghost predicate NamelessLeft(cs: seq<Command>) {
    exists name, u: UInt32 :: LastName(cs, name, u) == Some("") && Current(cs, u) != Some(name)
  }

  lemma {:induction false} LastNameWasGiven(cs: seq<Command>, name: string, u: UInt32)
    ensures LastName(cs, name, u).Some? ==>
              exists i :: 0 <= i < |cs| && Enters(cs[i], name, u) && cs[i].user.name == LastName(cs, name, u).value
    ensures Current(cs, u) == Some(name) ==> LastName(cs, name, u).Some?
  {
    if cs != [] && !Enters(cs[|cs| - 1], name, u) {
      LastNameWasGiven(cs[..|cs| - 1], name, u);
    }
  }

  // The truth about one user and one group, whether or not the group was ever joined.
  lemma MembershipFact(cs: seq<Command>, ids: seq<UInt32>, name: string, u: UInt32)
    requires |ids| == |cs| && AllTellTruth(cs) && NamesAreFree(cs)
    ensures MemberOf(Fold(cs, ids), name, u) <==> Current(cs, u) == Some(name) || LastName(cs, name, u) == Some("")
  {
    KeyNeverTaken(cs, name);
    if KeyIsFree(cs, name) {
      MemberIff(cs, ids, name, u);
    } else {
      // Nobody ever joins a group of that name.
      LastNameWasGiven(cs, name, u);
      MemberAfter(cs, ids, name, u);
      SinceIsSuffix(cs, name);
      LastNameWasGiven(Since(cs, name), name, u);
    }
  }

  // Membership is single and current exactly as long as no user without a name moves on.
  lemma MembershipIsCurrentIff(cs: seq<Command>, ids: seq<UInt32>)
    requires |ids| == |cs| && AllTellTruth(cs) && NamesAreFree(cs)
    ensures OneGroupEach(cs, Fold(cs, ids)) <==> !NamelessLeft(cs)
  {
    var s := Fold(cs, ids);
    if OneGroupEach(cs, s) {
      forall name, u: UInt32 ensures LastName(cs, name, u) == Some("") ==> Current(cs, u) == Some(name) {
        MembershipFact(cs, ids, name, u);
        assert MemberOf(s, name, u) <==> Current(cs, u) == Some(name);
      }
    } else if !NamelessLeft(cs) {
      forall name, u: UInt32 ensures MemberOf(s, name, u) <==> Current(cs, u) == Some(name) {
        MembershipFact(cs, ids, name, u);
      }
    }
  }

  // In particular it is while every join gives a name.
  lemma MembershipIsCurrent(cs: seq<Command>, ids: seq<UInt32>)
    requires |ids| == |cs| && AllTellTruth(cs) && NamesAreFree(cs)
    requires forall i | 0 <= i < |cs| && cs[i].Join? :: cs[i].user.name != ""
    ensures OneGroupEach(cs, Fold(cs, ids))
  {
    MembershipIsCurrentIff(cs, ids);
    forall name, u: UInt32 ensures LastName(cs, name, u) != Some("") {
      LastNameWasGiven(cs, name, u);
    }
  }

  // ---------- inputs that show the need for the assumptions ----------

  lemma FoldTwo(c: Command, d: Command, ids: seq<UInt32>)
    requires |ids| == 2
    ensures Fold([c, d], ids) == Apply(Apply(map[], c, ids[0]), d, ids[1])
  {
    assert [c, d][..1] == [c] && ids[..1] == [ids[0]];
    assert [c][..0] == [] && [ids[0]][..0] == [];
    assert Fold([c], [ids[0]]) == Apply(map[], c, ids[0]);
  }

  // A user without a name ends up in two groups.
  lemma NamelessUserInTwoGroups(ids: seq<UInt32>)
    requires |ids| == 2
    ensures var nobody := User(1, "");
            var s := Fold([Join(nobody, "a", ""), Join(nobody, "b", "a")], ids);
            MemberOf(s, "a", 1) && MemberOf(s, "b", 1)
  {
    var nobody := User(1, "");
    FoldTwo(Join(nobody, "a", ""), Join(nobody, "b", "a"), ids);
    assert "a" != "b" by { assert "a"[0] != "b"[0]; }
  }

  // A group named like the key of a user is gone when that user logs in.
  lemma GroupLostToLogin(ids: seq<UInt32>)
    requires |ids| == 2
    ensures !HasGroup(Fold([Join(User(2, "x"), "1", ""), Login(User(1, "y"))], ids), "1")
  {
    FoldTwo(Join(User(2, "x"), "1", ""), Login(User(1, "y")), ids);
  }
}
