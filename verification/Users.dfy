/**
 What the store holds of users after any sequence of committed commands, and what a group keeps
 besides its messages and participants.
 */
module Users {
  import opened Chat
  import opened Options
  import opened ChatMachine
  import opened ChatProofs

  // ---------- keys ----------

  predicate Digits(s: string) { forall i | 0 <= i < |s| :: '0' <= s[i] <= '9' }

  lemma {:induction false} DecimalDigits(n: nat)
    ensures |Decimal(n)| > 0 && Digits(Decimal(n))
    ensures n >= 10 ==> |Decimal(n)| > 1
  {
    if n >= 10 { DecimalDigits(n / 10); }
  }

  // No two users share a key.
  lemma {:induction false} DecimalInjective(a: nat, b: nat)
    requires Decimal(a) == Decimal(b)
    ensures a == b
  {
    DecimalDigits(a);
    DecimalDigits(b);
    var s := Decimal(a);
    if a >= 10 && b >= 10 {
      assert s[..|s| - 1] == Decimal(a / 10) && s[..|s| - 1] == Decimal(b / 10);
      DecimalInjective(a / 10, b / 10);
    }
    assert s[|s| - 1] == ('0' as int + a % 10) as char;
    assert s[|s| - 1] == ('0' as int + b % 10) as char;
  }

  // ---------- users ----------

  // The user who logged in under a key last, unless that user logged out or a group of that name was
  // joined since.
  function LoggedIn(cs: seq<Command>, key: string): Option<User> {
    if cs == [] then None
    else
      var c := cs[|cs| - 1];
      if TakesKey(c, key) then if c.Login? then Some(c.user) else None
      else if c.Join? && c.newGroup == key then None
      else LoggedIn(cs[..|cs| - 1], key)
  }

  function UserOf(s: Store, key: string): Option<User> {
    if key in s && s[key].UserBlob? then Some(s[key].user) else None
  }

  lemma UserStep(s: Store, c: Command, randomId: UInt32, key: string)
    ensures UserOf(Apply(s, c, randomId), key)
            == if TakesKey(c, key) then if c.Login? then Some(c.user) else None
               else if c.Join? && c.newGroup == key then None
               else UserOf(s, key)
  {
  }

  // The record of a user is exactly that of the last login under its key.
  lemma {:induction false} UserAfter(cs: seq<Command>, ids: seq<UInt32>, key: string)
    requires |ids| == |cs|
    ensures UserOf(Fold(cs, ids), key) == LoggedIn(cs, key)
  {
    if cs != [] {
      var n := |cs| - 1;
      UserAfter(cs[..n], ids[..n], key);
      UserStep(Fold(cs[..n], ids[..n]), cs[n], ids[n], key);
    }
  }

  lemma {:induction false} LoggedInUnderItsKey(cs: seq<Command>, key: string)
    ensures LoggedIn(cs, key).Some? ==> Decimal(LoggedIn(cs, key).value.id) == key
  {
    if cs != [] { LoggedInUnderItsKey(cs[..|cs| - 1], key); }
  }

  // So what is stored under the key of a user id is the record of the user with that id.
  lemma StoredUnderItsId(cs: seq<Command>, ids: seq<UInt32>, id: UInt32)
    requires |ids| == |cs|
    ensures var user := UserOf(Fold(cs, ids), Decimal(id)); user.Some? ==> user.value.id == id
  {
    UserAfter(cs, ids, Decimal(id));
    LoggedInUnderItsKey(cs, Decimal(id));
    var user := UserOf(Fold(cs, ids), Decimal(id));
    if user.Some? { DecimalInjective(user.value.id, id); }
  }

  // ---------- names and ids of groups ----------

  // The id drawn for the join that created the group, the first one since its key was last taken.
  function DrawnId(cs: seq<Command>, ids: seq<UInt32>, name: string): Option<UInt32>
    requires |ids| == |cs|
  {
    if cs == [] then None
    else
      var n := |cs| - 1;
      var before := DrawnId(cs[..n], ids[..n], name);
      if TakesKey(cs[n], name) then None
      else if before == None && cs[n].Join? && cs[n].newGroup == name then Some(ids[n])
      else before
  }

  function IdOf(s: Store, name: string): Option<UInt32> {
    if HasGroup(s, name) then Some(GroupOf(s, name).groupID) else None
  }

  ghost predicate NamedAsKey(s: Store, name: string) { HasGroup(s, name) ==> GroupOf(s, name).groupname == name }

  lemma GroupIdStep(s: Store, c: Command, randomId: UInt32, name: string)
    requires NamedAsKey(s, name)
    ensures NamedAsKey(Apply(s, c, randomId), name)
    ensures IdOf(Apply(s, c, randomId), name)
            == if TakesKey(c, name) then None
               else if IdOf(s, name) == None && c.Join? && c.newGroup == name then Some(randomId)
               else IdOf(s, name)
  {
  }

  // A group is stored under its name, and keeps the id that was drawn when it was created, whoever
  // joins it later.
  lemma {:induction false} GroupIdAfter(cs: seq<Command>, ids: seq<UInt32>, name: string)
    requires |ids| == |cs|
    ensures NamedAsKey(Fold(cs, ids), name) && IdOf(Fold(cs, ids), name) == DrawnId(cs, ids, name)
  {
    if cs != [] {
      var n := |cs| - 1;
      GroupIdAfter(cs[..n], ids[..n], name);
      GroupIdStep(Fold(cs[..n], ids[..n]), cs[n], ids[n], name);
    }
  }

  // ---------- likes ----------

  // Likes carry no value: only whose they are.
  predicate Bare(m: ChatMessage) { forall who | who in m.likedBy :: m.likedBy[who] == "" }

  ghost predicate BareGroup(g: Group) { forall k: UInt32 | k in g.messages :: Bare(g.messages[k]) }

  ghost predicate BareLikes(s: Store) { forall name | HasGroup(s, name) :: BareGroup(GroupOf(s, name)) }

  lemma BareUpdate(s: Store, name: string, g: Group)
    requires BareLikes(s) && BareGroup(g)
    ensures BareLikes(UpdateGroup(s, name, g))
  {
    forall o | HasGroup(UpdateGroup(s, name, g), o) ensures BareGroup(GroupOf(UpdateGroup(s, name, g), o)) {
      assert o != name ==> HasGroup(s, o);
    }
  }

  lemma BareMessageSet(s: Store, name: string, k: UInt32, m: ChatMessage)
    requires BareLikes(s) && HasGroup(s, name) && Bare(m)
    ensures var g := GroupOf(s, name);
            BareLikes(UpdateGroup(s, name, g.(messages := g.messages[k := m])))
  {
    var g := GroupOf(s, name);
    assert BareGroup(g);
    BareUpdate(s, name, g.(messages := g.messages[k := m]));
  }

  lemma BareRemove(s: Store, u: UInt32, name: string)
    requires BareLikes(s)
    ensures BareLikes(RemoveUserInGroup(s, u, name))
  {
    if HasGroup(s, name) {
      var g := GroupOf(s, name);
      assert BareGroup(g);
      BareUpdate(s, name, g.(participants := g.participants - {u}));
    }
  }

  lemma BareJoin(s: Store, name: string, user: User, randomId: UInt32)
    requires BareLikes(s)
    ensures BareLikes(JoinGroup(s, name, user, randomId))
  {
    var g := if HasGroup(s, name) then GroupOf(s, name) else NewGroup(name, randomId);
    assert BareGroup(g);
    BareUpdate(s, name, WithParticipant(g, user));
  }

  lemma BareKeyTaken(s: Store, s': Store)
    requires BareLikes(s)
    requires forall name | HasGroup(s', name) :: HasGroup(s, name) && GroupOf(s', name) == GroupOf(s, name)
    ensures BareLikes(s')
  {
  }

  lemma BareStep(s: Store, c: Command, randomId: UInt32)
    requires BareLikes(s) && (c.Append? ==> Bare(c.message))
    ensures BareLikes(Apply(s, c, randomId))
  {
    match c
    case Login(user) => BareKeyTaken(s, SaveUser(s, user));
    case Join(user, newGroup, currGroup) =>
      BareRemove(s, user.id, currGroup);
      BareJoin(RemoveUserInGroup(s, user.id, currGroup), newGroup, user, randomId);
    case Append(name, message) =>
      if HasGroup(s, name) { BareMessageSet(s, name, NextNumber(GroupOf(s, name)), message); }
    case Like(user, id, name) =>
      if HasGroup(s, name) && id in GroupOf(s, name).messages {
        assert BareGroup(GroupOf(s, name));
        BareMessageSet(s, name, id, Liked(GroupOf(s, name).messages[id], user.name));
      }
    case Unlike(user, id, name) =>
      if HasGroup(s, name) && id in GroupOf(s, name).messages {
        assert BareGroup(GroupOf(s, name));
        BareMessageSet(s, name, id, Unliked(GroupOf(s, name).messages[id], user.name));
      }
    case Logout(user, currGroup) =>
      BareKeyTaken(s, DeleteUser(s, user.id));
      BareRemove(DeleteUser(s, user.id), user.id, currGroup);
    case Other(_) =>
  }

  // Where messages are appended without likes or with bare ones, all likes are bare.
  lemma {:induction false} BareAfter(cs: seq<Command>, ids: seq<UInt32>)
    requires |ids| == |cs|
    requires forall i | 0 <= i < |cs| && cs[i].Append? :: Bare(cs[i].message)
    ensures BareLikes(Fold(cs, ids))
  {
    if cs != [] {
      var n := |cs| - 1;
      BareAfter(cs[..n], ids[..n]);
      BareStep(Fold(cs[..n], ids[..n]), cs[n], ids[n]);
    }
  }
}
