/**
 What the replicated store holds after any sequence of committed commands, read off the
 commands themselves.
 */
module ChatProofs {
  import opened Chat
  import opened ChatMachine

  // The store after a sequence of commands, each applied with the random id drawn for it.
  function Fold(cs: seq<Command>, ids: seq<UInt32>): Store
    requires |ids| == |cs|
  {
    if cs == [] then map[]
    else Apply(Fold(cs[..|cs| - 1], ids[..|cs| - 1]), cs[|cs| - 1], ids[|cs| - 1])
  }

  // ---------- replicas agree once group ids are erased ----------

  function EraseGroup(g: Group): Group { g.(groupID := 0) }

  function EraseBlob(b: Blob): Blob {
    match b
    case UserBlob(_) => b
    case GroupBlob(g) => GroupBlob(EraseGroup(g))
  }

  function Erase(s: Store): Store { map k | k in s :: EraseBlob(s[k]) }

  // The store that the commands alone determine.
  function Replay(cs: seq<Command>): Store {
    if cs == [] then map[] else Apply(Replay(cs[..|cs| - 1]), cs[|cs| - 1], 0)
  }

  lemma EraseUpdate(s: Store, name: string, g: Group)
    ensures Erase(UpdateGroup(s, name, g)) == UpdateGroup(Erase(s), name, EraseGroup(g))
  {
  }

  lemma EraseReads(s: Store, name: string)
    ensures HasGroup(Erase(s), name) == HasGroup(s, name)
    ensures HasGroup(s, name) ==> GroupOf(Erase(s), name) == EraseGroup(GroupOf(s, name))
  {
  }

  lemma EraseJoin(s: Store, name: string, user: User, randomId: UInt32)
    ensures Erase(JoinGroup(s, name, user, randomId)) == JoinGroup(Erase(s), name, user, 0)
  {
    EraseReads(s, name);
    var g := if HasGroup(s, name) then GroupOf(s, name) else NewGroup(name, randomId);
    EraseUpdate(s, name, WithParticipant(g, user));
  }

  lemma EraseRemove(s: Store, userId: UInt32, name: string)
    ensures Erase(RemoveUserInGroup(s, userId, name)) == RemoveUserInGroup(Erase(s), userId, name)
  {
    EraseReads(s, name);
    if HasGroup(s, name) {
      var g := GroupOf(s, name);
      EraseUpdate(s, name, g.(participants := g.participants - {userId}));
    }
  }

  lemma EraseMessages(s: Store, name: string, messages: map<UInt32, ChatMessage>)
    requires HasGroup(s, name)
    ensures Erase(UpdateGroup(s, name, GroupOf(s, name).(messages := messages)))
            == UpdateGroup(Erase(s), name, EraseGroup(GroupOf(s, name)).(messages := messages))
  {
    EraseUpdate(s, name, GroupOf(s, name).(messages := messages));
  }

  lemma EraseApply(s: Store, c: Command, randomId: UInt32)
    ensures Erase(Apply(s, c, randomId)) == Apply(Erase(s), c, 0)
  {
    match c
    case Login(user) =>
      assert Erase(s[Decimal(user.id) := UserBlob(user)]) == Erase(s)[Decimal(user.id) := UserBlob(user)];
    case Join(user, newGroup, currGroup) =>
      EraseRemove(s, user.id, currGroup);
      EraseJoin(RemoveUserInGroup(s, user.id, currGroup), newGroup, user, randomId);
    case Append(name, message) =>
      EraseReads(s, name);
      if HasGroup(s, name) {
        var g := GroupOf(s, name);
        EraseMessages(s, name, g.messages[NextNumber(g) := message]);
      }
    case Like(user, id, name) =>
      EraseReads(s, name);
      if HasGroup(s, name) && id in GroupOf(s, name).messages {
        var g := GroupOf(s, name);
        EraseMessages(s, name, g.messages[id := Liked(g.messages[id], user.name)]);
      }
    case Unlike(user, id, name) =>
      EraseReads(s, name);
      if HasGroup(s, name) && id in GroupOf(s, name).messages {
        var g := GroupOf(s, name);
        EraseMessages(s, name, g.messages[id := Unliked(g.messages[id], user.name)]);
      }
    case Logout(user, currGroup) =>
      assert Erase(DeleteUser(s, user.id)) == DeleteUser(Erase(s), user.id);
      EraseRemove(DeleteUser(s, user.id), user.id, currGroup);
    case Other(_) =>
  }

  // Whatever ids the replicas draw, what they store is the same up to group ids.
  lemma {:induction false} IdsDoNotMatter(cs: seq<Command>, ids: seq<UInt32>)
    requires |ids| == |cs|
    ensures Erase(Fold(cs, ids)) == Replay(cs)
  {
    if cs != [] {
      var n := |cs| - 1;
      IdsDoNotMatter(cs[..n], ids[..n]);
      EraseApply(Fold(cs[..n], ids[..n]), cs[n], ids[n]);
    }
  }

  // ---------- one group, from the commands alone ----------

  // A login or a logout of the user whose key in the store is the given name: whatever group was
  // stored under it is gone.
  predicate TakesKey(c: Command, name: string) {
    (c.Login? || c.Logout?) && Decimal(c.user.id) == name
  }

  // The commands since a key was last taken: only these matter to the group of that name.
  function Since(cs: seq<Command>, name: string): seq<Command> {
    if cs == [] then []
    else
      var init, c := cs[..|cs| - 1], cs[|cs| - 1];
      if TakesKey(c, name) then [] else Since(init, name) + [c]
  }

  predicate Joined(cs: seq<Command>, name: string) {
    exists c :: c in cs && c.Join? && c.newGroup == name
  }

  // The messages appended to the group since it exists, in order.
  function Appended(cs: seq<Command>, name: string): seq<ChatMessage> {
    if cs == [] then []
    else
      var init, c := cs[..|cs| - 1], cs[|cs| - 1];
      if c.Append? && c.group == name && Joined(init, name) then Appended(init, name) + [c.message]
      else Appended(init, name)
  }

  // The number that the next message gets when `count` were appended before.
  function NumberAfter(count: nat): UInt32 { if count < UINT32_RANGE then count else 0 }

  // The message appended last under number k.
  function AppendedAs(ms: seq<ChatMessage>, k: nat): ChatMessage
    requires k < |ms|
  {
    if k == 0 && |ms| > UINT32_RANGE then ms[|ms| - 1] else ms[k]
  }

  datatype Word = Silent | Likes | Unlikes

  // The last thing that a name said about message k since that message was appended.
  function LastWord(cs: seq<Command>, name: string, k: UInt32, who: string): Word {
    if cs == [] then Silent
    else
      var init, c := cs[..|cs| - 1], cs[|cs| - 1];
      if c.Append? && c.group == name && Joined(init, name) && NumberAfter(|Appended(init, name)|) == k then Silent
      else if c.Like? && c.group == name && c.messageId == k && c.user.name == who then Likes
      else if c.Unlike? && c.group == name && c.messageId == k && c.user.name == who then Unlikes
      else LastWord(init, name, k, who)
  }

  // Is `who` among those who like the message, given the message as it was appended?
  predicate ShouldLike(origin: ChatMessage, word: Word, who: string) {
    if who == origin.messagedBy.name || word == Silent then who in origin.likedBy else word == Likes
  }

  predicate SameText(m: ChatMessage, origin: ChatMessage) {
    m.messagedBy == origin.messagedBy && m.message == origin.message
  }

  ghost predicate MessageIs(cs: seq<Command>, name: string, k: UInt32, m: ChatMessage, origin: ChatMessage) {
    && SameText(m, origin)
    && forall who :: who in m.likedBy <==> ShouldLike(origin, LastWord(cs, name, k, who), who)
  }

  // The keys are an initial segment of the numbers, one for each append until the numbers run out.
  ghost predicate KeysAre(messages: map<UInt32, ChatMessage>, count: nat) {
    && |messages| == (if count < UINT32_RANGE then count else UINT32_RANGE)
    && forall k: UInt32 :: k in messages <==> k < count
  }

  ghost predicate MessagesAre(cs: seq<Command>, name: string, messages: map<UInt32, ChatMessage>) {
    var ms := Appended(cs, name);
    && KeysAre(messages, |ms|)
    && forall k: UInt32 | k in messages :: MessageIs(cs, name, k, messages[k], AppendedAs(ms, k))
  }

  ghost predicate GroupIs(cs: seq<Command>, name: string, s: Store) {
    && (HasGroup(s, name) <==> Joined(cs, name))
    && (HasGroup(s, name) ==> MessagesAre(cs, name, GroupOf(s, name).messages))
  }

  lemma JoinedStep(init: seq<Command>, c: Command, name: string)
    ensures Joined(init + [c], name) <==> Joined(init, name) || (c.Join? && c.newGroup == name)
  {
    if Joined(init, name) {
      var d :| d in init && d.Join? && d.newGroup == name;
      assert d in init + [c];
    }
    if c.Join? && c.newGroup == name {
      assert c in init + [c];
    }
  }

  lemma {:induction false} NothingBeforeJoin(cs: seq<Command>, name: string)
    requires !Joined(cs, name)
    ensures Appended(cs, name) == []
  {
    if cs != [] {
      var n := |cs| - 1;
      assert cs == cs[..n] + [cs[n]];
      JoinedStep(cs[..n], cs[n], name);
      NothingBeforeJoin(cs[..n], name);
    }
  }

  // A command that neither appends to the group nor is about one of its messages.
  predicate Unrelated(c: Command, name: string) {
    !((c.Append? || c.Like? || c.Unlike?) && c.group == name)
  }

  lemma UnrelatedStep(init: seq<Command>, c: Command, name: string, messages: map<UInt32, ChatMessage>)
    requires Unrelated(c, name) && MessagesAre(init, name, messages)
    ensures MessagesAre(init + [c], name, messages)
  {
    var cs := init + [c];
    assert cs[..|cs| - 1] == init;
    forall k: UInt32 | k in messages ensures MessageIs(cs, name, k, messages[k], AppendedAs(Appended(cs, name), k)) {
      assert MessageIs(init, name, k, messages[k], AppendedAs(Appended(init, name), k));
      forall who ensures LastWord(cs, name, k, who) == LastWord(init, name, k, who) {}
    }
  }

  lemma AppendMessageStep(init: seq<Command>, name: string, message: ChatMessage, k: UInt32, m: ChatMessage)
    requires Joined(init, name) && k <= |Appended(init, name)|
    requires k != NumberAfter(|Appended(init, name)|) ==>
               k < |Appended(init, name)| && MessageIs(init, name, k, m, AppendedAs(Appended(init, name), k))
    requires k == NumberAfter(|Appended(init, name)|) ==> m == message
    ensures var cs := init + [Append(name, message)];
            && Appended(cs, name) == Appended(init, name) + [message]
            && MessageIs(cs, name, k, m, AppendedAs(Appended(cs, name), k))
  {
    var cs := init + [Append(name, message)];
    assert cs[..|cs| - 1] == init;
    if k == NumberAfter(|Appended(init, name)|) {
      forall who ensures LastWord(cs, name, k, who) == Silent {}
    } else {
      forall who ensures LastWord(cs, name, k, who) == LastWord(init, name, k, who) {}
    }
  }

  lemma AppendKeys(messages: map<UInt32, ChatMessage>, count: nat, message: ChatMessage)
    requires KeysAre(messages, count)
    ensures KeysAre(messages[NumberAfter(count) := message], count + 1)
  {
  }

  lemma AppendEach(init: seq<Command>, name: string, message: ChatMessage,
                   messages: map<UInt32, ChatMessage>, k: UInt32)
    requires Joined(init, name) && MessagesAre(init, name, messages)
    requires k in messages[NumberAfter(|Appended(init, name)|) := message]
    ensures var cs := init + [Append(name, message)];
            && Appended(cs, name) == Appended(init, name) + [message]
            && MessageIs(cs, name, k, messages[NumberAfter(|Appended(init, name)|) := message][k],
                         AppendedAs(Appended(cs, name), k))
  {
    var number := NumberAfter(|Appended(init, name)|);
    AppendMessageStep(init, name, message, k, messages[number := message][k]);
  }

  lemma NextNumberIs(g: Group, count: nat)
    requires KeysAre(g.messages, count)
    ensures NextNumber(g) == NumberAfter(count)
  {
  }

  lemma AppendStep(init: seq<Command>, name: string, message: ChatMessage, messages: map<UInt32, ChatMessage>)
    requires Joined(init, name) && MessagesAre(init, name, messages)
    ensures MessagesAre(init + [Append(name, message)], name,
                        messages[NumberAfter(|Appended(init, name)|) := message])
  {
    var cs, ms := init + [Append(name, message)], Appended(init, name);
    var messages' := messages[NumberAfter(|ms|) := message];
    AppendKeys(messages, |ms|, message);
    assert Appended(cs, name) == ms + [message] by { AppendEach(init, name, message, messages, NumberAfter(|ms|)); }
    forall k: UInt32 | k in messages' ensures MessageIs(cs, name, k, messages'[k], AppendedAs(Appended(cs, name), k)) {
      AppendEach(init, name, message, messages, k);
    }
  }

  // What a like or an unlike does to the message it is about.
  function Judged(m: ChatMessage, c: Command): ChatMessage
    requires c.Like? || c.Unlike?
  {
    if c.Like? then if CanLike(m, c.user.name) then Liked(m, c.user.name) else m
    else if CanUnlike(m, c.user.name) then Unliked(m, c.user.name) else m
  }

  lemma JudgeStep(init: seq<Command>, name: string, c: Command, messages: map<UInt32, ChatMessage>)
    requires (c.Like? || c.Unlike?) && c.group == name && MessagesAre(init, name, messages)
    ensures MessagesAre(init + [c], name,
              if c.messageId in messages then messages[c.messageId := Judged(messages[c.messageId], c)] else messages)
  {
    var cs := init + [c];
    assert cs[..|cs| - 1] == init;
    var ms := Appended(init, name);
    assert Appended(cs, name) == ms;
    var messages' :=
      if c.messageId in messages then messages[c.messageId := Judged(messages[c.messageId], c)] else messages;
    forall k: UInt32 | k in messages' ensures MessageIs(cs, name, k, messages'[k], AppendedAs(ms, k)) {
      assert MessageIs(init, name, k, messages[k], AppendedAs(ms, k));
      JudgeMessage(init, name, c, k, messages[k], AppendedAs(ms, k));
    }
  }

  lemma JudgeMessage(init: seq<Command>, name: string, c: Command, k: UInt32, m: ChatMessage, origin: ChatMessage)
    requires (c.Like? || c.Unlike?) && c.group == name && MessageIs(init, name, k, m, origin)
    ensures MessageIs(init + [c], name, k, if k == c.messageId then Judged(m, c) else m, origin)
  {
    var cs := init + [c];
    assert cs[..|cs| - 1] == init;
    var m' := if k == c.messageId then Judged(m, c) else m;
    forall who ensures who in m'.likedBy <==> ShouldLike(origin, LastWord(cs, name, k, who), who) {
      assert who in m.likedBy <==> ShouldLike(origin, LastWord(init, name, k, who), who);
    }
  }

  lemma UnrelatedGroupStep(init: seq<Command>, c: Command, randomId: UInt32, name: string, s: Store)
    requires GroupIs(init, name, s) && !TakesKey(c, name) && Unrelated(c, name)
    ensures GroupIs(init + [c], name, Apply(s, c, randomId))
  {
    var s' := Apply(s, c, randomId);
    JoinedStep(init, c, name);
    UnrelatedGroup(s, c, randomId, name);
    if HasGroup(s, name) {
      UnrelatedStep(init, c, name, GroupOf(s, name).messages);
    } else if HasGroup(s', name) {
      NothingBeforeJoin(init, name);
      assert (init + [c])[..|init|] == init;
    }
  }

  lemma GroupStep(init: seq<Command>, c: Command, randomId: UInt32, name: string, s: Store)
    requires GroupIs(init, name, s) && !TakesKey(c, name)
    ensures GroupIs(init + [c], name, Apply(s, c, randomId))
  {
    JoinedStep(init, c, name);
    if Unrelated(c, name) {
      UnrelatedGroupStep(init, c, randomId, name, s);
    } else if HasGroup(s, name) {
      if c.Append? {
        NextNumberIs(GroupOf(s, name), |Appended(init, name)|);
        AppendStep(init, name, c.message, GroupOf(s, name).messages);
      } else {
        JudgeStep(init, name, c, GroupOf(s, name).messages);
      }
    }
  }

  lemma UnrelatedGroup(s: Store, c: Command, randomId: UInt32, name: string)
    requires Unrelated(c, name) && !TakesKey(c, name)
    ensures var s' := Apply(s, c, randomId);
            && (HasGroup(s', name) <==> HasGroup(s, name) || (c.Join? && c.newGroup == name))
            && (HasGroup(s', name) ==>
                  GroupOf(s', name).messages == if HasGroup(s, name) then GroupOf(s, name).messages else map[])
  {
  }

  lemma TakenKey(s: Store, c: Command, randomId: UInt32, name: string)
    requires TakesKey(c, name)
    ensures !HasGroup(Apply(s, c, randomId), name)
  {
  }

  // The message map of a group after any commands: which numbers it has, who wrote what under
  // them, and exactly who likes it.
  lemma {:induction false} GroupAfter(cs: seq<Command>, ids: seq<UInt32>, name: string)
    requires |ids| == |cs|
    ensures GroupIs(Since(cs, name), name, Fold(cs, ids))
  {
    if cs != [] {
      var n := |cs| - 1;
      var s := Fold(cs[..n], ids[..n]);
      if TakesKey(cs[n], name) {
        TakenKey(s, cs[n], ids[n], name);
      } else {
        GroupAfter(cs[..n], ids[..n], name);
        GroupStep(Since(cs[..n], name), cs[n], ids[n], name, s);
      }
    }
  }

  lemma {:induction false} SinceIsSuffix(cs: seq<Command>, name: string)
    ensures |Since(cs, name)| <= |cs| && Since(cs, name) == cs[|cs| - |Since(cs, name)|..]
  {
    if cs != [] && !TakesKey(cs[|cs| - 1], name) {
      var n := |cs| - 1;
      SinceIsSuffix(cs[..n], name);
      var k := n - |Since(cs[..n], name)|;
      assert cs[k..] == cs[..n][k..] + [cs[n]];
    }
  }

  predicate KeyIsFree(cs: seq<Command>, name: string) {
    forall i | 0 <= i < |cs| :: !TakesKey(cs[i], name)
  }

  // All the commands matter exactly if nobody's key collides with the name of the group.
  lemma {:induction false} KeyNeverTaken(cs: seq<Command>, name: string)
    ensures Since(cs, name) == cs <==> KeyIsFree(cs, name)
  {
    if cs != [] {
      var n := |cs| - 1;
      KeyNeverTaken(cs[..n], name);
      SinceIsSuffix(cs[..n], name);
      if Since(cs, name) == cs {
        assert Since(cs[..n], name) == Since(cs, name)[..n];
      }
      if KeyIsFree(cs, name) {
        assert !TakesKey(cs[n], name) && cs == cs[..n] + [cs[n]];
      }
    }
  }

  // The map is the sequence of appended messages, by position.
  ghost predicate IsSequence(messages: map<UInt32, ChatMessage>, ms: seq<ChatMessage>) {
    && |messages| == |ms|
    && forall k: UInt32 :: (k in messages <==> k < |ms|) && (k < |ms| ==> SameText(messages[k], ms[k]))
  }

  // The messages appended to the group since it exists, after all the commands.
  function Transcript(cs: seq<Command>, name: string): seq<ChatMessage> { Appended(Since(cs, name), name) }

  // That is so exactly as long as the 32-bit numbers last.
  lemma MessagesAreASequence(cs: seq<Command>, ids: seq<UInt32>, name: string)
    requires |ids| == |cs| && Joined(Since(cs, name), name)
    ensures var s, ms := Fold(cs, ids), Transcript(cs, name);
            HasGroup(s, name) && (IsSequence(GroupOf(s, name).messages, ms) <==> |ms| <= UINT32_RANGE)
  {
    GroupAfter(cs, ids, name);
    var messages, ms := GroupOf(Fold(cs, ids), name).messages, Transcript(cs, name);
    if |ms| <= UINT32_RANGE {
      forall k: UInt32 | k < |ms| ensures SameText(messages[k], ms[k]) {
        assert MessageIs(Since(cs, name), name, k, messages[k], AppendedAs(ms, k));
      }
    }
  }

  // Beyond that every append reuses the first number.
  lemma FirstMessageIsReplaced(cs: seq<Command>, ids: seq<UInt32>, name: string)
    requires |ids| == |cs| && Joined(Since(cs, name), name)
    requires |Transcript(cs, name)| > UINT32_RANGE
    ensures var s, ms := Fold(cs, ids), Transcript(cs, name);
            && HasGroup(s, name)
            && |GroupOf(s, name).messages| == UINT32_RANGE && 0 in GroupOf(s, name).messages
            && SameText(GroupOf(s, name).messages[0], ms[|ms| - 1])
  {
    GroupAfter(cs, ids, name);
    var messages, ms := GroupOf(Fold(cs, ids), name).messages, Transcript(cs, name);
    assert MessageIs(Since(cs, name), name, 0, messages[0], AppendedAs(ms, 0));
  }

  // A name likes a message exactly when it is not the author's and its last like or unlike of the
  // message since it was appended was a like.
  lemma LikedByIsTheLastWord(cs: seq<Command>, ids: seq<UInt32>, name: string, k: UInt32, who: string)
    requires |ids| == |cs|
    requires forall c | c in cs && c.Append? && c.group == name :: c.message.likedBy == map[]
    requires HasGroup(Fold(cs, ids), name) && k in GroupOf(Fold(cs, ids), name).messages
    ensures var m := GroupOf(Fold(cs, ids), name).messages[k];
            who in m.likedBy <==> who != m.messagedBy.name && LastWord(Since(cs, name), name, k, who) == Likes
  {
    var since, ms := Since(cs, name), Transcript(cs, name);
    GroupAfter(cs, ids, name);
    SinceIsSuffix(cs, name);
    AppendedFrom(since, name);
    assert MessageIs(since, name, k, GroupOf(Fold(cs, ids), name).messages[k], AppendedAs(ms, k));
    assert AppendedAs(ms, k) in ms;
    assert Append(name, AppendedAs(ms, k)) in since;
  }

  lemma {:induction false} AppendedFrom(cs: seq<Command>, name: string)
    ensures forall m | m in Appended(cs, name) :: Append(name, m) in cs
  {
    if cs != [] {
      var init := cs[..|cs| - 1];
      AppendedFrom(init, name);
      assert forall c | c in init :: c in cs;
    }
  }
}
