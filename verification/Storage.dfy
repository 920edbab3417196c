/**
 The disk store of one server, updated in place: the key-value store of users and groups, and
 the three keys under which the consensus module saves its persistent state.
 */
module Storage {
  import opened Chat
  import opened Options
  import opened Logs
  import M = ChatMachine

  // What SetState writes; a SetState call is taken to be atomic.
  datatype Saved = Saved(term: int, votedFor: int, log: Log)

  // Any set on the raft keys is noticed only through a non-empty log.
  predicate RestoresData(disk: Option<Saved>) { disk.Some? && |disk.value.log| > 0 }

  class DiskStore {
    var diskstore: Store
    var replicatedlog: Option<Saved>

    constructor ()
      ensures diskstore == map[] && replicatedlog == None
    {
      diskstore, replicatedlog := map[], None;
    }

    method SaveUser(user: User)
      modifies this`diskstore
      ensures diskstore == M.SaveUser(old(diskstore), user)
    {
      diskstore := diskstore[M.Decimal(user.id) := UserBlob(user)];
    }

    method DeleteUser(userId: UInt32)
      modifies this`diskstore
      ensures diskstore == M.DeleteUser(old(diskstore), userId)
    {
      diskstore := diskstore - {M.Decimal(userId)};
    }

    method GetGroup(groupname: string) returns (group: Option<Group>)
      ensures group.Some? == M.HasGroup(diskstore, groupname)
      ensures group.Some? ==> group.value == M.GroupOf(diskstore, groupname)
    {
      if groupname in diskstore && diskstore[groupname].GroupBlob? {
        group := Some(diskstore[groupname].group);
      } else {
        group := None;
      }
    }

    method UpdateGroup(groupname: string, group: Group) returns (ok: bool)
      modifies this`diskstore
      ensures ok && diskstore == M.UpdateGroup(old(diskstore), groupname, group)
    {
      diskstore := diskstore[groupname := GroupBlob(group)];
      ok := true;
    }

    method JoinGroup(groupname: string, user: User, randomId: UInt32)
      modifies this`diskstore
      ensures diskstore == M.JoinGroup(old(diskstore), groupname, user, randomId)
    {
      var found := GetGroup(groupname);
      if found.Some? {
        var group := found.value;
        group := group.(participants := group.participants[user.id := user.name]);
        var ok := UpdateGroup(groupname, group);
        if ok { return; }
      }
      var newGroup := Group(randomId, groupname, map[], map[]);
      newGroup := newGroup.(participants := newGroup.participants[user.id := user.name]);
      var _ := UpdateGroup(groupname, newGroup);
    }

    method RemoveUserInGroup(userId: UInt32, groupname: string) returns (ok: bool)
      modifies this`diskstore
      ensures ok && diskstore == M.RemoveUserInGroup(old(diskstore), userId, groupname)
    {
      var found := GetGroup(groupname);
      if found.Some? {
        var group := found.value;
        if userId !in group.participants || group.participants[userId] == "" {
          return true;
        }
        group := group.(participants := group.participants - {userId});
        ok := UpdateGroup(groupname, group);
      } else {
        ok := true;
      }
    }

    method AppendMessage(groupname: string, message: ChatMessage)
      modifies this`diskstore
      ensures diskstore == M.AppendMessage(old(diskstore), groupname, message)
    {
      var found := GetGroup(groupname);
      if found.Some? {
        var group := found.value;
        var number := |group.messages| % UINT32_RANGE;
        group := group.(messages := group.messages[number := message]);
        var _ := UpdateGroup(groupname, group);
      }
    }

    method LikeMessage(user: User, messageId: UInt32, groupname: string)
      modifies this`diskstore
      ensures diskstore == M.LikeMessage(old(diskstore), user, messageId, groupname)
    {
      var found := GetGroup(groupname);
      if found.Some? {
        var group := found.value;
        if messageId !in group.messages { return; }
        var message := group.messages[messageId];
        if message.messagedBy.name == user.name { return; }
        if user.name in message.likedBy { return; }
        message := message.(likedBy := message.likedBy[user.name := ""]);
        group := group.(messages := group.messages[messageId := message]);
        var _ := UpdateGroup(groupname, group);
      }
    }

    method UnLikeMessage(user: User, messageId: UInt32, groupname: string)
      modifies this`diskstore
      ensures diskstore == M.UnLikeMessage(old(diskstore), user, messageId, groupname)
    {
      var found := GetGroup(groupname);
      if found.Some? {
        var group := found.value;
        if messageId !in group.messages { return; }
        var message := group.messages[messageId];
        if message.messagedBy.name == user.name { return; }
        if user.name !in message.likedBy { return; }
        message := message.(likedBy := message.likedBy - {user.name});
        group := group.(messages := group.messages[messageId := message]);
        var _ := UpdateGroup(groupname, group);
      }
    }

    method SetState(currentTerm: int, votedFor: int, log: Log)
      modifies this`replicatedlog
      ensures replicatedlog == Some(Saved(currentTerm, votedFor, log))
    {
      replicatedlog := Some(Saved(currentTerm, votedFor, log));
    }

    // Reading keys that were never set is a fatal error.
    method GetState() returns (term: int, votedFor: int, log: Log)
      requires replicatedlog.Some?
      ensures replicatedlog == Some(Saved(term, votedFor, log))
    {
      var Saved(t, v, l) := replicatedlog.value;
      term, votedFor, log := t, v, l;
    }

    method HasData() returns (b: bool)
      ensures b == RestoresData(replicatedlog)
    {
      b := replicatedlog.Some? && |replicatedlog.value.log| > 0;
    }
  }

  // The part of a server that applies committed commands and names its peers.
  class Server {
    const serverId: int
    const storage: DiskStore
    var peerIds: seq<int>

    // The peers of server 1..5 are the others, in order and without repetition.
    constructor (serverId: int, storage: DiskStore)
      ensures this.serverId == serverId && this.storage == storage
      ensures forall p :: p in peerIds <==> 1 <= p <= 5 && p != serverId
      ensures forall i, j | 0 <= i < j < |peerIds| :: peerIds[i] < peerIds[j]
    {
      this.serverId, this.storage := serverId, storage;
      var peers: seq<int> := [];
      for p := 1 to 6
        invariant forall q :: q in peers <==> 1 <= q < p && q != serverId
        invariant forall i | 0 <= i < |peers| :: peers[i] in peers
        invariant forall i, j | 0 <= i < j < |peers| :: peers[i] < peers[j]
      {
        if p != serverId {
          peers := peers + [p];
        }
      }
      peerIds := peers;
    }

    method PersistData(command: Command, randomId: UInt32)
      modifies storage`diskstore
      ensures storage.diskstore == M.Apply(old(storage.diskstore), command, randomId)
    {
      match command
      case Login(user) => storage.SaveUser(user);
      case Join(user, newGroup, currGroup) =>
        var removed := storage.RemoveUserInGroup(user.id, currGroup);
        if removed { storage.JoinGroup(newGroup, user, randomId); }
      case Append(group, message) => storage.AppendMessage(group, message);
      case Like(user, id, group) => storage.LikeMessage(user, id, group);
      case Unlike(user, id, group) => storage.UnLikeMessage(user, id, group);
      case Logout(user, currGroup) =>
        storage.DeleteUser(user.id);
        var _ := storage.RemoveUserInGroup(user.id, currGroup);
      case Other(_) =>
    }
  }
}
