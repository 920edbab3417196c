/**
 The replicated chat state machine: users, groups, messages and the commands that the
 consensus module hands over once they are committed.
 */
module Chat {

  // The wire format gives user ids, group ids and message numbers 32 unsigned bits.
  const UINT32_RANGE := 0x1_0000_0000
  type UInt32 = x: int | 0 <= x < UINT32_RANGE

  datatype User = User(id: UInt32, name: string)

  datatype ChatMessage = ChatMessage(messagedBy: User, message: string, likedBy: map<string, string>)

  datatype Group = Group(
    groupID: UInt32,
    groupname: string,
    participants: map<UInt32, string>,
    messages: map<UInt32, ChatMessage>)

  // One key-value store holds both users and groups.
  datatype Blob = UserBlob(user: User) | GroupBlob(group: Group)
  type Store = map<string, Blob>

  // A committed command, by its event letter: u, j, a, l, r, q, or an event nothing is stored for.
  datatype Command =
    | Login(user: User)
    | Join(user: User, newGroup: string, currGroup: string)
    | Append(group: string, message: ChatMessage)
    | Like(user: User, messageId: UInt32, group: string)
    | Unlike(user: User, messageId: UInt32, group: string)
    | Logout(user: User, currGroup: string)
    | Other(event: string)
}
