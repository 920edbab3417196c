/**
 After a restart a server applies the committed commands from the first one again, to a store that
 it kept. So what it applies altogether is a number of runs, each a prefix of the committed commands
 `cs`, and then `cs` itself. When does that leave what applying `cs` once would?
 */
module Restart {
  import opened Chat
  import opened ChatMachine
  import opened ChatProofs
  import opened Membership

  function AppendsTo(cs: seq<Command>, name: string): seq<ChatMessage> {
    if cs == [] then []
    else
      var c := cs[|cs| - 1];
      AppendsTo(cs[..|cs| - 1], name) + if c.Append? && c.group == name then [c.message] else []
  }

  // What the runs apply, one after the other.
  function Flat(runs: seq<seq<Command>>): seq<Command> {
    if runs == [] then [] else runs[0] + Flat(runs[1..])
  }

  function Longest(runs: seq<seq<Command>>): seq<Command> {
    if runs == [] then []
    else if |Longest(runs[1..])| <= |runs[0]| then runs[0] else Longest(runs[1..])
  }

  predicate Prefixes(runs: seq<seq<Command>>, cs: seq<Command>) { forall i | 0 <= i < |runs| :: runs[i] <= cs }

  // The longest of the earlier runs joins the group and appends to it, and no login or logout makes
  // away with the group.
  predicate Repeats(runs: seq<seq<Command>>, cs: seq<Command>, name: string) {
    KeyIsFree(cs, name) && Tells(Longest(runs), name)
  }

  predicate Tells(run: seq<Command>, name: string) { Joined(run, name) && AppendsTo(run, name) != [] }

  // ---------- what is read off a concatenation ----------

  lemma FreeStep(init: seq<Command>, c: Command, name: string)
    ensures KeyIsFree(init + [c], name) <==> KeyIsFree(init, name) && !TakesKey(c, name)
  {
    var cs := init + [c];
    assert cs[|init|] == c;
    assert forall i | 0 <= i < |init| :: cs[i] == init[i];
  }

  lemma SinceStep(init: seq<Command>, c: Command, name: string)
    ensures Since(init + [c], name) == if TakesKey(c, name) then [] else Since(init, name) + [c]
  {
    assert (init + [c])[..|init|] == init;
  }

  lemma SinceConcatStep(a: seq<Command>, init: seq<Command>, c: Command, name: string)
    requires Since(a + init, name) == if KeyIsFree(init, name) then Since(a, name) + init else Since(init, name)
    ensures Since(a + (init + [c]), name)
            == if KeyIsFree(init + [c], name) then Since(a, name) + (init + [c]) else Since(init + [c], name)
  {
    assert a + (init + [c]) == a + init + [c];
    assert Since(a, name) + (init + [c]) == Since(a, name) + init + [c];
    FreeStep(init, c, name);
    SinceStep(a + init, c, name);
    SinceStep(init, c, name);
  }

  lemma {:induction false} SinceConcat(a: seq<Command>, b: seq<Command>, name: string)
    ensures Since(a + b, name) == if KeyIsFree(b, name) then Since(a, name) + b else Since(b, name)
  {
    if b == [] {
      assert a + b == a;
    } else {
      var init, c := b[..|b| - 1], b[|b| - 1];
      assert b == init + [c];
      SinceConcat(a, init, name);
      SinceConcatStep(a, init, c, name);
    }
  }

  lemma JoinedConcat(a: seq<Command>, b: seq<Command>, name: string)
    ensures Joined(a + b, name) <==> Joined(a, name) || Joined(b, name)
  {
    if Joined(a, name) {
      var c :| c in a && c.Join? && c.newGroup == name;
      assert c in a + b;
    }
    if Joined(b, name) {
      var c :| c in b && c.Join? && c.newGroup == name;
      assert c in a + b;
    }
  }

  lemma {:induction false} AppendsConcat(a: seq<Command>, b: seq<Command>, name: string)
    ensures AppendsTo(a + b, name) == AppendsTo(a, name) + AppendsTo(b, name)
  {
    if b == [] {
      assert a + b == a;
    } else {
      assert (a + b)[..|a + b| - 1] == a + b[..|b| - 1];
      AppendsConcat(a, b[..|b| - 1], name);
    }
  }

  // Once the group exists, every append to it counts.
  lemma {:induction false} AppendedConcat(a: seq<Command>, b: seq<Command>, name: string)
    ensures Appended(a + b, name)
            == Appended(a, name) + if Joined(a, name) then AppendsTo(b, name) else Appended(b, name)
  {
    if b == [] {
      assert a + b == a;
    } else {
      var init := b[..|b| - 1];
      assert (a + b)[..|a + b| - 1] == a + init;
      AppendedConcat(a, init, name);
      JoinedConcat(a, init, name);
      if !Joined(a, name) { NothingBeforeJoin(a, name); }
    }
  }

  lemma {:induction false} AppendedAtMost(cs: seq<Command>, name: string)
    ensures |Appended(cs, name)| <= |AppendsTo(cs, name)|
  {
    if cs != [] { AppendedAtMost(cs[..|cs| - 1], name); }
  }

  // ---------- earlier runs against the longest of them ----------

  lemma {:induction false} LongestIs(runs: seq<seq<Command>>, cs: seq<Command>)
    requires Prefixes(runs, cs)
    ensures Longest(runs) <= cs && Prefixes(runs, Longest(runs))
  {
    if runs != [] {
      var rest := runs[1..];
      assert forall i | 0 <= i < |rest| :: rest[i] == runs[i + 1];
      LongestIs(rest, cs);
      forall i | 0 <= i < |runs| ensures runs[i] <= Longest(runs) {
        if i > 0 { assert runs[i] == rest[i - 1] && rest[i - 1] <= Longest(rest); }
      }
    }
  }

  // What the earlier runs applied altogether, measured by the longest of them.
  predicate Covers(past: seq<Command>, l: seq<Command>, name: string) {
    && (KeyIsFree(l, name) ==> KeyIsFree(past, name))
    && (Joined(past, name) <==> Joined(l, name))
    && (AppendsTo(l, name) == [] ==> AppendsTo(past, name) == [])
    && |Appended(l, name)| <= |Appended(past, name)|
  }

  lemma KeyConcat(a: seq<Command>, b: seq<Command>, name: string)
    requires KeyIsFree(a, name) && KeyIsFree(b, name)
    ensures KeyIsFree(a + b, name)
  {
  }

  lemma PrefixFacts(p: seq<Command>, l: seq<Command>, name: string)
    requires p <= l
    ensures KeyIsFree(l, name) ==> KeyIsFree(p, name)
    ensures Joined(p, name) ==> Joined(l, name)
    ensures AppendsTo(l, name) == [] ==> AppendsTo(p, name) == []
    ensures |Appended(p, name)| <= |Appended(l, name)|
  {
    var rest := l[|p|..];
    assert l == p + rest;
    JoinedConcat(p, rest, name);
    AppendsConcat(p, rest, name);
    AppendedConcat(p, rest, name);
  }

  lemma {:induction false} BoundedRuns(runs: seq<seq<Command>>, l: seq<Command>, name: string)
    requires Prefixes(runs, l)
    ensures KeyIsFree(l, name) ==> KeyIsFree(Flat(runs), name)
    ensures Joined(Flat(runs), name) ==> Joined(l, name)
    ensures AppendsTo(l, name) == [] ==> AppendsTo(Flat(runs), name) == []
  {
    if runs != [] {
      var p, rest := runs[0], runs[1..];
      assert forall i | 0 <= i < |rest| :: rest[i] == runs[i + 1];
      BoundedRuns(rest, l, name);
      PrefixFacts(p, l, name);
      if KeyIsFree(l, name) { KeyConcat(p, Flat(rest), name); }
      JoinedConcat(p, Flat(rest), name);
      AppendsConcat(p, Flat(rest), name);
    }
  }

  lemma {:induction false} LongestCounts(runs: seq<seq<Command>>, name: string)
    ensures Joined(Longest(runs), name) ==> Joined(Flat(runs), name)
    ensures |Appended(Longest(runs), name)| <= |Appended(Flat(runs), name)|
  {
    if runs != [] {
      var p, rest := runs[0], Flat(runs[1..]);
      LongestCounts(runs[1..], name);
      JoinedConcat(p, rest, name);
      AppendedConcat(p, rest, name);
      AppendedAtMost(rest, name);
    }
  }

  lemma RunsCovered(runs: seq<seq<Command>>, cs: seq<Command>, name: string)
    requires Prefixes(runs, cs)
    ensures Longest(runs) <= cs && Covers(Flat(runs), Longest(runs), name)
  {
    LongestIs(runs, cs);
    BoundedRuns(runs, Longest(runs), name);
    LongestCounts(runs, name);
  }

  // ---------- the messages ----------

  lemma RepeatedTranscript(past: seq<Command>, l: seq<Command>, cs: seq<Command>, name: string)
    requires l <= cs && KeyIsFree(cs, name) && Covers(past, l, name)
    ensures Since(past + cs, name) == past + cs && Since(cs, name) == cs
    ensures Joined(past + cs, name) <==> Joined(cs, name)
    ensures |Appended(past + cs, name)| >= |Appended(cs, name)|
    ensures |Appended(past + cs, name)| == |Appended(cs, name)| <==> !Tells(l, name)
  {
    var rest := cs[|l|..];
    assert cs == l + rest;
    PrefixFacts(l, cs, name);
    SinceConcat(past, cs, name);
    KeyNeverTaken(cs, name);
    KeyNeverTaken(past, name);
    JoinedConcat(past, cs, name);
    AppendedConcat(past, cs, name);
    AppendedConcat(l, rest, name);
    AppendsConcat(l, rest, name);
    if !Tells(l, name) { NoneAppended(past, name); }
    if !Tells(l, name) { NoneAppended(l, name); }
  }

  // The messages of a group are the same after the repetition exactly if it repeats none of them.
  lemma TranscriptKeptIff(runs: seq<seq<Command>>, cs: seq<Command>, name: string)
    requires Prefixes(runs, cs)
    ensures |Transcript(Flat(runs) + cs, name)| >= |Transcript(cs, name)|
    ensures |Transcript(Flat(runs) + cs, name)| == |Transcript(cs, name)| <==> !Repeats(runs, cs, name)
  {
    RunsCovered(runs, cs, name);
    if KeyIsFree(cs, name) {
      RepeatedTranscript(Flat(runs), Longest(runs), cs, name);
    } else {
      SinceConcat(Flat(runs), cs, name);
    }
  }

  // The same last word about every message of the group.
  ghost predicate SameWords(a: seq<Command>, b: seq<Command>, name: string) {
    forall k: UInt32, who | k < |Appended(b, name)| :: LastWord(a, name, k, who) == LastWord(b, name, k, who)
  }

  lemma WordsStep(a: seq<Command>, b: seq<Command>, c: Command, name: string)
    requires Appended(a, name) == Appended(b, name) && SameWords(a, b, name)
    requires c.Append? && c.group == name ==> (Joined(a, name) <==> Joined(b, name))
    ensures Appended(a + [c], name) == Appended(b + [c], name) && SameWords(a + [c], b + [c], name)
  {
    assert (a + [c])[..|a|] == a && (b + [c])[..|b|] == b;
    forall k: UInt32, who | k < |Appended(b + [c], name)|
      ensures LastWord(a + [c], name, k, who) == LastWord(b + [c], name, k, who)
    {
      if k >= |Appended(b, name)| {
        assert NumberAfter(|Appended(b, name)|) == k;
      }
    }
  }

  // Up to any of the commands, a repetition that repeats no message changes neither the messages nor
  // the last word about one of them.
  lemma {:induction false} WordsAgree(past: seq<Command>, l: seq<Command>, b: seq<Command>, cs: seq<Command>,
                                      name: string)
    requires l <= cs && b <= cs && Covers(past, l, name) && !Tells(l, name)
    ensures Appended(past + b, name) == Appended(b, name) && SameWords(past + b, b, name)
  {
    if b == [] {
      assert past + b == past;
      NoneAppended(past, name);
    } else {
      var init, c := b[..|b| - 1], b[|b| - 1];
      assert past + b == past + init + [c] && b == init + [c];
      WordsAgree(past, l, init, cs, name);
      JoinedConcat(past, init, name);
      if c.Append? && c.group == name && Joined(l, name) {
        AppendComesLater(l, init, c, cs, name);
      }
      WordsStep(past + init, init, c, name);
    }
  }

  lemma {:induction false} NoneAppended(cs: seq<Command>, name: string)
    requires !Joined(cs, name) || AppendsTo(cs, name) == []
    ensures Appended(cs, name) == []
  {
    if !Joined(cs, name) {
      NothingBeforeJoin(cs, name);
    } else if cs != [] {
      assert AppendsTo(cs[..|cs| - 1], name) == [];
      NoneAppended(cs[..|cs| - 1], name);
    }
  }

  lemma {:induction false} AppendIsCounted(cs: seq<Command>, i: nat, name: string)
    requires i < |cs| && cs[i].Append? && cs[i].group == name
    ensures AppendsTo(cs, name) != []
  {
    if i < |cs| - 1 {
      AppendIsCounted(cs[..|cs| - 1], i, name);
    }
  }

  // An append that is not among `pre` comes after all of it.
  lemma AppendComesLater(pre: seq<Command>, init: seq<Command>, c: Command, cs: seq<Command>, name: string)
    requires pre <= cs && init + [c] <= cs && c.Append? && c.group == name
    requires Joined(pre, name) && AppendsTo(pre, name) == []
    ensures Joined(init, name)
  {
    assert (init + [c])[|init|] == cs[|init|];
    if |init| < |pre| {
      AppendIsCounted(pre, |init|, name);
      assert false;
    }
    assert init == pre + init[|pre|..];
    JoinedConcat(pre, init[|pre|..], name);
  }

  // ---------- the participants ----------

  lemma {:induction false} MembersConcat(a: seq<Command>, b: seq<Command>, name: string, u: UInt32)
    ensures LastName(a + b, name, u)
            == if LastName(b, name, u).Some? then LastName(b, name, u) else LastName(a, name, u)
    ensures LastName(b, name, u).Some? ==> LeftSince(a + b, name, u) == LeftSince(b, name, u)
  {
    if b == [] {
      assert a + b == a;
    } else {
      assert (a + b)[..|a + b| - 1] == a + b[..|b| - 1];
      MembersConcat(a, b[..|b| - 1], name, u);
    }
  }

  lemma {:induction false} RunsNames(runs: seq<seq<Command>>, cs: seq<Command>, name: string, u: UInt32)
    requires Prefixes(runs, cs) && LastName(Flat(runs), name, u).Some?
    ensures LastName(cs, name, u).Some?
  {
    var p, rest := runs[0], runs[1..];
    assert forall i | 0 <= i < |rest| :: rest[i] == runs[i + 1];
    MembersConcat(p, Flat(rest), name, u);
    if LastName(Flat(rest), name, u).Some? {
      RunsNames(rest, cs, name, u);
    } else {
      assert cs == p + cs[|p|..];
      MembersConcat(p, cs[|p|..], name, u);
    }
  }

  // Membership never suffers from a repetition.
  lemma MembersKept(runs: seq<seq<Command>>, cs: seq<Command>, name: string, u: UInt32)
    requires Prefixes(runs, cs)
    ensures LastName(Since(Flat(runs) + cs, name), name, u) == LastName(Since(cs, name), name, u)
    ensures StillIn(Since(Flat(runs) + cs, name), name, u) == StillIn(Since(cs, name), name, u)
  {
    if KeyIsFree(cs, name) {
      RunsCovered(runs, cs, name);
      RepeatedTranscript(Flat(runs), Longest(runs), cs, name);
      MembersConcat(Flat(runs), cs, name, u);
      if LastName(Flat(runs), name, u).Some? { RunsNames(runs, cs, name, u); }
    } else {
      SinceConcat(Flat(runs), cs, name);
    }
  }

  // ---------- the store ----------

  ghost predicate SameMessages(a: map<UInt32, ChatMessage>, b: map<UInt32, ChatMessage>) {
    && |a| == |b|
    && forall k: UInt32 :: (k in a <==> k in b) &&
         (k in a ==> SameText(a[k], b[k]) && forall who :: who in a[k].likedBy <==> who in b[k].likedBy)
  }

  // The group looks the same in both stores, but for its random id.
  ghost predicate SameGroup(s: Store, s': Store, name: string) {
    && (HasGroup(s, name) <==> HasGroup(s', name))
    && (HasGroup(s, name) && HasGroup(s', name) ==>
          && SameMessages(GroupOf(s, name).messages, GroupOf(s', name).messages)
          && GroupOf(s, name).participants == GroupOf(s', name).participants)
  }

  lemma MessagesKept(runs: seq<seq<Command>>, cs: seq<Command>, name: string,
                     a: map<UInt32, ChatMessage>, b: map<UInt32, ChatMessage>)
    requires Prefixes(runs, cs) && !Repeats(runs, cs, name) && |Transcript(cs, name)| <= UINT32_RANGE
    requires MessagesAre(Since(Flat(runs) + cs, name), name, a) && MessagesAre(Since(cs, name), name, b)
    ensures SameMessages(a, b)
  {
    if KeyIsFree(cs, name) {
      RunsCovered(runs, cs, name);
      RepeatedTranscript(Flat(runs), Longest(runs), cs, name);
      WordsAgree(Flat(runs), Longest(runs), cs, cs, name);
    } else {
      SinceConcat(Flat(runs), cs, name);
    }
    var ms := Transcript(cs, name);
    forall k: UInt32 | k in a
      ensures k in b && SameText(a[k], b[k]) && forall who :: who in a[k].likedBy <==> who in b[k].likedBy
    {
      assert MessageIs(Since(Flat(runs) + cs, name), name, k, a[k], AppendedAs(ms, k));
      assert MessageIs(Since(cs, name), name, k, b[k], AppendedAs(ms, k));
    }
  }

  lemma ParticipantsKept(runs: seq<seq<Command>>, cs: seq<Command>, name: string, s: Store, s': Store)
    requires Prefixes(runs, cs) && HasGroup(s, name) && HasGroup(s', name)
    requires forall u: UInt32 :: MemberIs(Since(Flat(runs) + cs, name), name, u, s)
    requires forall u: UInt32 :: MemberIs(Since(cs, name), name, u, s')
    ensures GroupOf(s, name).participants == GroupOf(s', name).participants
  {
    var p, p' := GroupOf(s, name).participants, GroupOf(s', name).participants;
    forall u: UInt32 ensures u in p <==> u in p' ensures u in p && u in p' ==> p[u] == p'[u] {
      MembersKept(runs, cs, name, u);
      assert MemberIs(Since(Flat(runs) + cs, name), name, u, s) && MemberIs(Since(cs, name), name, u, s');
    }
    assert p.Keys == p'.Keys;
  }

  lemma GroupsExist(runs: seq<seq<Command>>, cs: seq<Command>, name: string)
    requires Prefixes(runs, cs)
    ensures Joined(Since(Flat(runs) + cs, name), name) <==> Joined(Since(cs, name), name)
  {
    if KeyIsFree(cs, name) {
      RunsCovered(runs, cs, name);
      RepeatedTranscript(Flat(runs), Longest(runs), cs, name);
    } else {
      SinceConcat(Flat(runs), cs, name);
    }
  }

  lemma GroupKept(runs: seq<seq<Command>>, cs: seq<Command>, ids: seq<UInt32>, ids': seq<UInt32>, name: string)
    requires Prefixes(runs, cs) && |ids| == |Flat(runs) + cs| && |ids'| == |cs|
    requires |Transcript(cs, name)| <= UINT32_RANGE && !Repeats(runs, cs, name)
    ensures SameGroup(Fold(Flat(runs) + cs, ids), Fold(cs, ids'), name)
  {
    var s, s' := Fold(Flat(runs) + cs, ids), Fold(cs, ids');
    GroupAfter(Flat(runs) + cs, ids, name);
    GroupAfter(cs, ids', name);
    GroupsExist(runs, cs, name);
    if HasGroup(s, name) {
      MessagesKept(runs, cs, name, GroupOf(s, name).messages, GroupOf(s', name).messages);
      forall u: UInt32
        ensures MemberIs(Since(Flat(runs) + cs, name), name, u, s) && MemberIs(Since(cs, name), name, u, s')
      {
        MemberAfter(Flat(runs) + cs, ids, name, u);
        MemberAfter(cs, ids', name, u);
      }
      ParticipantsKept(runs, cs, name, s, s');
    }
  }

  lemma MessageCount(cs: seq<Command>, ids: seq<UInt32>, name: string)
    requires |ids| == |cs| && Joined(Since(cs, name), name) && |Transcript(cs, name)| <= UINT32_RANGE
    ensures HasGroup(Fold(cs, ids), name)
    ensures |GroupOf(Fold(cs, ids), name).messages| == |Transcript(cs, name)|
  {
    GroupAfter(cs, ids, name);
  }

  lemma RepeatedJoin(runs: seq<seq<Command>>, cs: seq<Command>, name: string)
    requires Prefixes(runs, cs) && Repeats(runs, cs, name)
    ensures Joined(Since(Flat(runs) + cs, name), name) && Joined(Since(cs, name), name)
  {
    RunsCovered(runs, cs, name);
    RepeatedTranscript(Flat(runs), Longest(runs), cs, name);
    PrefixFacts(Longest(runs), cs, name);
  }

  // Messages that are repeated are there again.
  lemma GroupChanged(runs: seq<seq<Command>>, cs: seq<Command>, ids: seq<UInt32>, ids': seq<UInt32>, name: string)
    requires Prefixes(runs, cs) && |ids| == |Flat(runs) + cs| && |ids'| == |cs|
    requires |Transcript(Flat(runs) + cs, name)| <= UINT32_RANGE && Repeats(runs, cs, name)
    ensures var s, s' := Fold(Flat(runs) + cs, ids), Fold(cs, ids');
            && HasGroup(s, name) && HasGroup(s', name)
            && |GroupOf(s, name).messages| > |GroupOf(s', name).messages|
  {
    RepeatedJoin(runs, cs, name);
    TranscriptKeptIff(runs, cs, name);
    MessageCount(Flat(runs) + cs, ids, name);
    MessageCount(cs, ids', name);
  }

  // Applying the commands again, after any number of restarts, leaves a group as it was exactly if
  // the runs before the last append nothing to it, or a login or logout makes away with the group.
  lemma GroupKeptIff(runs: seq<seq<Command>>, cs: seq<Command>, ids: seq<UInt32>, ids': seq<UInt32>, name: string)
    requires Prefixes(runs, cs) && |ids| == |Flat(runs) + cs| && |ids'| == |cs|
    requires |Transcript(Flat(runs) + cs, name)| <= UINT32_RANGE
    ensures SameGroup(Fold(Flat(runs) + cs, ids), Fold(cs, ids'), name) <==> !Repeats(runs, cs, name)
  {
    TranscriptKeptIff(runs, cs, name);
    if Repeats(runs, cs, name) {
      GroupChanged(runs, cs, ids, ids', name);
    } else {
      GroupKept(runs, cs, ids, ids', name);
    }
  }

  lemma JoinThenAppend(m: ChatMessage, user: User)
    ensures var cs := [Join(user, "g", ""), Append("g", m)];
            Joined(cs, "g") && Appended(cs, "g") == [m] && AppendsTo(cs, "g") == [m] && KeyIsFree(cs, "g")
  {
    var c, d := Join(user, "g", ""), Append("g", m);
    var cs := [c, d];
    assert cs == [c] + [d] && [c] == [] + [c];
    assert c in [c] && c in cs;
    assert Joined([c], "g");
    AppendStep([], c, "g");
    AppendStep([c], d, "g");
  }

  lemma AppendStep(init: seq<Command>, c: Command, name: string)
    ensures var added := if c.Append? && c.group == name then [c.message] else [];
            && AppendsTo(init + [c], name) == AppendsTo(init, name) + added
            && Appended(init + [c], name) == Appended(init, name) + if Joined(init, name) then added else []
  {
    assert (init + [c])[..|init|] == init;
  }

  // One message, one restart: the group ends up with the message twice.
  lemma MessageRepeated(m: ChatMessage, user: User, ids: seq<UInt32>, ids': seq<UInt32>)
    requires |ids| == 4 && |ids'| == 2
    ensures var cs := [Join(user, "g", ""), Append("g", m)];
            && HasGroup(Fold(cs + cs, ids), "g") && |GroupOf(Fold(cs + cs, ids), "g").messages| == 2
            && HasGroup(Fold(cs, ids'), "g") && |GroupOf(Fold(cs, ids'), "g").messages| == 1
  {
    var cs := [Join(user, "g", ""), Append("g", m)];
    JoinThenAppend(m, user);
    KeyConcat(cs, cs, "g");
    KeyNeverTaken(cs, "g");
    KeyNeverTaken(cs + cs, "g");
    JoinedConcat(cs, cs, "g");
    AppendedConcat(cs, cs, "g");
    MessageCount(cs + cs, ids, "g");
    MessageCount(cs, ids', "g");
  }
}
