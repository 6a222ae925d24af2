/**
  The server's registry of connections, subscriptions and collaboration groups, stated on values:
  what each handler does (`lib/realtime/src/server/rt_server.rs`, `collaborate/group_cmd.rs`,
  `group_sub.rs`, `group.rs`, `all_group.rs`). Every handler runs as one step.
 */
module SessionRegistry {
  import opened UserDeviceKeys

  type SessionId = string

  datatype Origin = Server | Client(uid: int, deviceId: string) | Empty

  datatype Editing = Editing(objectId: string, origin: Origin)

  /** A group's subscribers, each with the origin it subscribed under, and the users by device key. */
  datatype Group = Group(subscribers: map<User, Origin>, userByUserDevice: map<string, User>)

  /** A client stream is identified by the session id of the connection that brought it. */
  datatype Registry = Registry(
    userByDevice: map<UserDevice, User>,
    sessionByUser: map<User, SessionId>,
    editingByUser: map<User, set<Editing>>,
    streamByUser: map<User, SessionId>,
    groups: map<string, Group>)

  /** What the server looks at in the first message of a batch. */
  datatype FirstMessage = FirstMessage(objectId: string, isInit: bool, origin: Origin)

  const EMPTY_GROUP := Group(map[], map[])

  function EmptyRegistry(): Registry {
    Registry(map[], map[], map[], map[], map[])
  }

  // Handlers -------------------------------------------------------------------------------------

  /** `CollabGroup::remove_user`. */
  function WithoutSubscriber(g: Group, user: User): Group {
    g.(subscribers := g.subscribers - {user})
  }

  /** `AllGroup::remove_user`. */
  function LeaveGroup(r: Registry, objectId: string, user: User): Registry {
    if objectId in r.groups
    then r.(groups := r.groups[objectId := WithoutSubscriber(r.groups[objectId], user)])
    else r
  }

  function LeaveGroups(groups: map<string, Group>, editings: set<Editing>, user: User): map<string, Group> {
    map o | o in groups ::
      if exists e :: e in editings && e.objectId == o then WithoutSubscriber(groups[o], user) else groups[o]
  }

  /** `remove_user`: leave every group that the reverse index names. */
  function RemoveUser(r: Registry, user: User): Registry {
    if user in r.editingByUser then
      r.(editingByUser := r.editingByUser - {user}, groups := LeaveGroups(r.groups, r.editingByUser[user], user))
    else r
  }

  function DropStream(r: Registry, user: User): Registry {
    r.(streamByUser := r.streamByUser - {user})
  }

  function Connect(r: Registry, user: User, session: SessionId): Registry {
    var device := DeviceOf(user);
    var r1 := r.(sessionByUser := r.sessionByUser[user := session], userByDevice := r.userByDevice[device := user]);
    var r2 :=
      if device in r.userByDevice then
        var previous := r.userByDevice[device];
        RemoveUser(DropStream(r1, previous), previous)
      else r1;
    r2.(streamByUser := r2.streamByUser[user := session])
  }

  function Disconnect(r: Registry, user: User, session: SessionId): Registry {
    if user in r.sessionByUser && r.sessionByUser[user] != session then r
    else DropStream(RemoveUser(r, user), user)
  }

  /** `CollabGroup::subscribe`: a new subscriber replaces the one known under the same device key. */
  function Subscribed(g: Group, user: User, origin: Origin): Group {
    var key := UserDeviceKey(user);
    var others :=
      if key in g.userByUserDevice then g.subscribers - {g.userByUserDevice[key]} else g.subscribers;
    Group(others[user := origin], g.userByUserDevice[key := user])
  }

  /** `SubscribeGroup::run`. */
  function Subscribe(r: Registry, user: User, m: FirstMessage): Registry {
    if user in r.streamByUser && m.objectId in r.groups && user !in r.groups[m.objectId].subscribers then
      var known := if user in r.editingByUser then r.editingByUser[user] else {};
      r.(editingByUser := r.editingByUser[user := known + {Editing(m.objectId, m.origin)}],
         groups := r.groups[m.objectId := Subscribed(r.groups[m.objectId], user, m.origin)])
    else r
  }

  /** `broadcast_client_collab_message`: a stream that cannot take the message is dropped. */
  function Forward(r: Registry, user: User, sendFails: bool): Registry {
    if sendFails then DropStream(r, user) else r
  }

  /** `GroupCommandRunner::handle_collab_message` for a non-empty batch filed under `objectId`. */
  function HandleMessages(r: Registry, user: User, objectId: string, m: FirstMessage, sendFails: bool): Registry {
    if user !in r.streamByUser then r
    else if objectId in r.groups then
      var r1 := if m.isInit then LeaveGroup(r, objectId, user) else r;
      var r2 := if user !in r1.groups[objectId].subscribers then Subscribe(r1, user, m) else r1;
      Forward(r2, user, sendFails)
    else if m.isInit && m.origin.Client? then
      var r1 := r.(groups := r.groups[m.objectId := EMPTY_GROUP]);
      Forward(Subscribe(r1, user, m), user, sendFails)
    else r
  }

  /** `AllGroup::tick` removes some of the groups that are idle and have no subscriber. */
  predicate CanRetire(r: Registry, ids: set<string>) {
    forall id :: id in ids ==> id in r.groups && r.groups[id].subscribers == map[]
  }

  function Retire(r: Registry, ids: set<string>): Registry {
    r.(groups := r.groups - ids)
  }

  // Runs -----------------------------------------------------------------------------------------

  datatype Event =
    | Connects(user: User, session: SessionId)
    | Disconnects(user: User, session: SessionId)
    | Messages(user: User, objectId: string, first: FirstMessage, sendFails: bool)
    | Tick(ids: set<string>)

  function Step(r: Registry, e: Event): Registry {
    match e
    case Connects(user, session) => Connect(r, user, session)
    case Disconnects(user, session) => Disconnect(r, user, session)
    case Messages(user, objectId, first, sendFails) => HandleMessages(r, user, objectId, first, sendFails)
    case Tick(ids) => if CanRetire(r, ids) then Retire(r, ids) else r
  }

  function Run(r: Registry, events: seq<Event>): Registry {
    if events == [] then r else Step(Run(r, events[..|events| - 1]), events[|events| - 1])
  }
}
