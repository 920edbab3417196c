/**
 Applying committed commands to the key-value store of users and groups.
 */
module ChatMachine {
  import opened Chat

  // The decimal form of a user id, which is the user's key in the store.
  function Decimal(n: nat): string {
    if n < 10 then [('0' as int + n) as char] else Decimal(n / 10) + [('0' as int + n % 10) as char]
  }

  // A key that is missing, or that holds a user, decodes to no group.
  predicate HasGroup(s: Store, name: string) { name in s && s[name].GroupBlob? }

  function GroupOf(s: Store, name: string): Group
    requires HasGroup(s, name)
  {
    s[name].group
  }

  function SaveUser(s: Store, user: User): Store { s[Decimal(user.id) := UserBlob(user)] }

  function DeleteUser(s: Store, userId: UInt32): Store { s - {Decimal(userId)} }

  function UpdateGroup(s: Store, name: string, group: Group): Store { s[name := GroupBlob(group)] }

  // The id of a new group is drawn at random on every replica.
  function NewGroup(name: string, randomId: UInt32): Group { Group(randomId, name, map[], map[]) }

  function WithParticipant(g: Group, user: User): Group {
    g.(participants := g.participants[user.id := user.name])
  }

  function JoinGroup(s: Store, name: string, user: User, randomId: UInt32): Store {
    var g := if HasGroup(s, name) then GroupOf(s, name) else NewGroup(name, randomId);
    UpdateGroup(s, name, WithParticipant(g, user))
  }

  // A participant recorded under the empty name counts as absent.
  predicate Participates(g: Group, userId: UInt32) {
    userId in g.participants && g.participants[userId] != ""
  }

  function RemoveUserInGroup(s: Store, userId: UInt32, name: string): Store {
    if HasGroup(s, name) && Participates(GroupOf(s, name), userId) then
      var g := GroupOf(s, name);
      UpdateGroup(s, name, g.(participants := g.participants - {userId}))
    else s
  }

  // The number given to the next message: the message count, truncated to 32 bits.
  function NextNumber(g: Group): UInt32 { |g.messages| % UINT32_RANGE }

  function AppendMessage(s: Store, name: string, message: ChatMessage): Store {
    if HasGroup(s, name) then
      var g := GroupOf(s, name);
      UpdateGroup(s, name, g.(messages := g.messages[NextNumber(g) := message]))
    else s
  }

  predicate CanLike(m: ChatMessage, name: string) { m.messagedBy.name != name && name !in m.likedBy }

  predicate CanUnlike(m: ChatMessage, name: string) { m.messagedBy.name != name && name in m.likedBy }

  // A like is stored with an empty value: only the key matters.
  function Liked(m: ChatMessage, name: string): ChatMessage { m.(likedBy := m.likedBy[name := ""]) }

  function Unliked(m: ChatMessage, name: string): ChatMessage { m.(likedBy := m.likedBy - {name}) }

  function LikeMessage(s: Store, user: User, id: UInt32, name: string): Store {
    if HasGroup(s, name) && id in GroupOf(s, name).messages && CanLike(GroupOf(s, name).messages[id], user.name) then
      var g := GroupOf(s, name);
      UpdateGroup(s, name, g.(messages := g.messages[id := Liked(g.messages[id], user.name)]))
    else s
  }

  function UnLikeMessage(s: Store, user: User, id: UInt32, name: string): Store {
    if HasGroup(s, name) && id in GroupOf(s, name).messages && CanUnlike(GroupOf(s, name).messages[id], user.name) then
      var g := GroupOf(s, name);
      UpdateGroup(s, name, g.(messages := g.messages[id := Unliked(g.messages[id], user.name)]))
    else s
  }

  // persistData: the effect of one committed command.
  function Apply(s: Store, c: Command, randomId: UInt32): Store {
    match c
    case Login(user) => SaveUser(s, user)
    case Join(user, newGroup, currGroup) =>
      JoinGroup(RemoveUserInGroup(s, user.id, currGroup), newGroup, user, randomId)
    case Append(group, message) => AppendMessage(s, group, message)
    case Like(user, id, group) => LikeMessage(s, user, id, group)
    case Unlike(user, id, group) => UnLikeMessage(s, user, id, group)
    case Logout(user, currGroup) => RemoveUserInGroup(DeleteUser(s, user.id), user.id, currGroup)
    case Other(_) => s
  }
}
