/**
  The registry serves its clients: a connected client that sends a batch is subscribed afterwards,
  and no handler touches the connections and subscriptions of other devices.
 */
module RegistryService {
  import opened UserDeviceKeys
  import opened SessionRegistry
  import opened RegistrySafety

  // Device keys ----------------------------------------------------------------------------------

  /** A group files every user under its own device key. */
  ghost predicate FiledByKey(g: Group) {
    forall k :: k in g.userByUserDevice ==> UserDeviceKey(g.userByUserDevice[k]) == k
  }

  ghost predicate AllFiledByKey(r: Registry) {
    forall o :: o in r.groups ==> FiledByKey(r.groups[o])
  }

  lemma RemovalFiles(r: Registry, user: User)
    requires AllFiledByKey(r)
    ensures AllFiledByKey(RemoveUser(r, user))
  {
  }

  lemma ConnectFiles(r: Registry, user: User, session: SessionId)
    requires AllFiledByKey(r)
    ensures AllFiledByKey(Connect(r, user, session))
  {
    var device := DeviceOf(user);
    if device in r.userByDevice {
      var r1 := r.(sessionByUser := r.sessionByUser[user := session], userByDevice := r.userByDevice[device := user]);
      RemovalFiles(DropStream(r1, r.userByDevice[device]), r.userByDevice[device]);
    }
  }

  lemma SubscribeFiles(r: Registry, user: User, m: FirstMessage)
    requires AllFiledByKey(r)
    ensures AllFiledByKey(Subscribe(r, user, m))
  {
  }

  lemma MessagesFile(r: Registry, user: User, objectId: string, m: FirstMessage, sendFails: bool)
    requires AllFiledByKey(r)
    ensures AllFiledByKey(HandleMessages(r, user, objectId, m, sendFails))
  {
    if user !in r.streamByUser {
    } else if objectId in r.groups {
      var left := if m.isInit then LeaveGroup(r, objectId, user) else r;
      assert AllFiledByKey(left);
      SubscribeFiles(left, user, m);
    } else {
      var made := r.(groups := r.groups[m.objectId := EMPTY_GROUP]);
      assert AllFiledByKey(made);
      SubscribeFiles(made, user, m);
    }
  }

  lemma StepFiles(r: Registry, e: Event)
    requires AllFiledByKey(r)
    ensures AllFiledByKey(Step(r, e))
  {
    match e
    case Connects(user, session) => ConnectFiles(r, user, session);
    case Disconnects(user, session) => RemovalFiles(r, user);
    case Messages(user, objectId, first, sendFails) => MessagesFile(r, user, objectId, first, sendFails);
    case Tick(ids) =>
  }

  lemma {:induction false} RunFiles(events: seq<Event>)
    ensures AllFiledByKey(Run(EmptyRegistry(), events))
  {
    if events != [] {
      RunFiles(events[..|events| - 1]);
      StepFiles(Run(EmptyRegistry(), events[..|events| - 1]), events[|events| - 1]);
    }
  }

  // Subscribing ----------------------------------------------------------------------------------

  /** Two groups agree on the subscribers of other devices. */
  ghost predicate SameForOthers(g: Group, g': Group, user: User) {
    forall v :: DeviceOf(v) != DeviceOf(user) ==>
      && (v in g'.subscribers <==> v in g.subscribers)
      && (v in g.subscribers ==> g'.subscribers[v] == g.subscribers[v])
  }

  ghost predicate SubscribedUnder(g: Group, user: User, origin: Origin) {
    && user in g.subscribers && g.subscribers[user] == origin
    && UserDeviceKey(user) in g.userByUserDevice && g.userByUserDevice[UserDeviceKey(user)] == user
  }

  lemma SubscribedServes(g: Group, user: User, origin: Origin)
    requires FiledByKey(g)
    ensures SubscribedUnder(Subscribed(g, user, origin), user, origin)
    ensures SameForOthers(g, Subscribed(g, user, origin), user)
  {
    forall v | DeviceOf(v) != DeviceOf(user)
      ensures UserDeviceKey(v) != UserDeviceKey(user)
    {
      if UserDeviceKey(v) == UserDeviceKey(user) {
        UserDeviceKeyInjective(v, user);
      }
    }
  }

  lemma LeavingIsPrivate(g: Group, user: User)
    ensures SameForOthers(g, WithoutSubscriber(g, user), user)
  {
  }

  /** The group `objectId` after a batch, and everything else as it was. */
  ghost predicate OnlyGroupChanged(r: Registry, r': Registry, objectId: string) {
    && r'.groups.Keys == r.groups.Keys + {objectId}
    && forall o :: o in r.groups && o != objectId ==> r'.groups[o] == r.groups[o]
  }

  /** The streams after a batch of `user`: its own is dropped if it could not take the batch. */
  ghost predicate StreamsAfter(r: Registry, r': Registry, user: User, sendFails: bool) {
    && (forall v :: v in r'.streamByUser <==> v in r.streamByUser && !(sendFails && v == user))
    && (forall v :: v in r'.streamByUser ==> r'.streamByUser[v] == r.streamByUser[v])
  }

  /** What a batch for an existing group leaves of the group. */
  function GroupAfter(g: Group, user: User, m: FirstMessage): Group {
    var left := if m.isInit then WithoutSubscriber(g, user) else g;
    if user in left.subscribers then left else Subscribed(left, user, m.origin)
  }

  lemma BatchForGroup(r: Registry, user: User, m: FirstMessage, sendFails: bool)
    requires user in r.streamByUser && m.objectId in r.groups
    ensures var r' := HandleMessages(r, user, m.objectId, m, sendFails);
      && OnlyGroupChanged(r, r', m.objectId)
      && r'.groups[m.objectId] == GroupAfter(r.groups[m.objectId], user, m)
      && StreamsAfter(r, r', user, sendFails)
  {
  }

  lemma BatchForNewGroup(r: Registry, user: User, m: FirstMessage, sendFails: bool)
    requires user in r.streamByUser && m.objectId !in r.groups && m.isInit && m.origin.Client?
    ensures var r' := HandleMessages(r, user, m.objectId, m, sendFails);
      && OnlyGroupChanged(r, r', m.objectId)
      && r'.groups[m.objectId] == Subscribed(EMPTY_GROUP, user, m.origin)
      && StreamsAfter(r, r', user, sendFails)
  {
  }

  lemma GroupAfterServes(g: Group, user: User, m: FirstMessage)
    requires FiledByKey(g)
    ensures SameForOthers(g, GroupAfter(g, user, m), user)
    ensures m.isInit || user !in g.subscribers ==> SubscribedUnder(GroupAfter(g, user, m), user, m.origin)
    ensures !m.isInit && user in g.subscribers ==> GroupAfter(g, user, m) == g
  {
    var left := if m.isInit then WithoutSubscriber(g, user) else g;
    LeavingIsPrivate(g, user);
    SubscribedServes(left, user, m.origin);
  }

  /**
    In every reachable state, a connected user whose batch finds a group, or is the init sync of a
    client that creates it, is a subscriber afterwards, known by its device key: under the
    message's origin if it was not subscribed or sends an init sync, and as before otherwise.
    Subscriptions of other devices, other groups and other streams stay as they were.
   */
  lemma BatchSubscribes(events: seq<Event>, user: User, m: FirstMessage, sendFails: bool)
    requires var r := Run(EmptyRegistry(), events);
      user in r.streamByUser && (m.objectId in r.groups || (m.isInit && m.origin.Client?))
    ensures var r := Run(EmptyRegistry(), events);
      var r' := HandleMessages(r, user, m.objectId, m, sendFails);
      && OnlyGroupChanged(r, r', m.objectId) && StreamsAfter(r, r', user, sendFails)
      && SubscribedUnder(r'.groups[m.objectId], user,
           if m.isInit || !Subscribes(r, m.objectId, user) then m.origin else r.groups[m.objectId].subscribers[user])
      && SameForOthers(if m.objectId in r.groups then r.groups[m.objectId] else EMPTY_GROUP, r'.groups[m.objectId], user)
  {
    var r := Run(EmptyRegistry(), events);
    RunFiles(events);
    RunKeeps(events);
    if m.objectId in r.groups {
      BatchForGroup(r, user, m, sendFails);
      GroupAfterServes(r.groups[m.objectId], user, m);
      assert Subscribes(r, m.objectId, user) <==> user in r.groups[m.objectId].subscribers;
    } else {
      BatchForNewGroup(r, user, m, sendFails);
      SubscribedServes(EMPTY_GROUP, user, m.origin);
    }
  }

  /** A batch of a user that is not connected, or for a group that it may not create, changes nothing. */
  lemma BatchRefused(r: Registry, user: User, objectId: string, m: FirstMessage, sendFails: bool)
    requires user !in r.streamByUser || (objectId !in r.groups && !(m.isInit && m.origin.Client?))
    ensures HandleMessages(r, user, objectId, m, sendFails) == r
  {
  }

  // Other handlers -------------------------------------------------------------------------------

  /** Streams and subscriptions of user `v`, with their origins, are the same. */
  ghost predicate Untouched(r: Registry, r': Registry, v: User) {
    && (v in r'.streamByUser <==> v in r.streamByUser)
    && (v in r.streamByUser ==> r'.streamByUser[v] == r.streamByUser[v])
    && forall o :: SameSubscription(r, r', o, v)
  }

  ghost predicate SameSubscription(r: Registry, r': Registry, o: string, v: User) {
    && (Subscribes(r', o, v) <==> Subscribes(r, o, v))
    && (Subscribes(r, o, v) ==> r'.groups[o].subscribers[v] == r.groups[o].subscribers[v])
  }

  lemma RemovalIsPrivate(r: Registry, user: User, v: User)
    requires v != user
    ensures Untouched(r, RemoveUser(r, user), v)
  {
  }

  lemma DropIsPrivate(r: Registry, user: User, v: User)
    requires v != user
    ensures Untouched(r, DropStream(r, user), v)
  {
  }

  lemma UntouchedTwice(r: Registry, mid: Registry, r': Registry, v: User)
    requires Untouched(r, mid, v) && Untouched(mid, r', v)
    ensures Untouched(r, r', v)
  {
    forall o
      ensures SameSubscription(r, r', o, v)
    {
      assert SameSubscription(r, mid, o, v) && SameSubscription(mid, r', o, v);
    }
  }

  lemma NewStreamIsPrivate(r: Registry, user: User, session: SessionId, v: User)
    requires v != user
    ensures Untouched(r, r.(streamByUser := r.streamByUser[user := session]), v)
  {
  }

  lemma EntryIsPrivate(r: Registry, user: User, session: SessionId, v: User)
    ensures Untouched(
      r, r.(sessionByUser := r.sessionByUser[user := session], userByDevice := r.userByDevice[DeviceOf(user) := user]), v)
  {
  }

  lemma ReplacedIsPrivate(r: Registry, previous: User, v: User)
    requires v != previous
    ensures Untouched(r, RemoveUser(DropStream(r, previous), previous), v)
  {
    DropIsPrivate(r, previous, v);
    RemovalIsPrivate(DropStream(r, previous), previous, v);
    UntouchedTwice(r, DropStream(r, previous), RemoveUser(DropStream(r, previous), previous), v);
  }

  /** Whoever connects, other devices keep their streams and subscriptions. */
  lemma ConnectLeavesOthers(events: seq<Event>, user: User, session: SessionId, v: User)
    requires DeviceOf(v) != DeviceOf(user)
    ensures Untouched(Run(EmptyRegistry(), events), Connect(Run(EmptyRegistry(), events), user, session), v)
  {
    var r, device := Run(EmptyRegistry(), events), DeviceOf(user);
    var r1 := r.(sessionByUser := r.sessionByUser[user := session], userByDevice := r.userByDevice[device := user]);
    EntryIsPrivate(r, user, session, v);
    RunDevices(events);
    var r2 := r1;
    if device in r.userByDevice {
      var previous := r.userByDevice[device];
      r2 := RemoveUser(DropStream(r1, previous), previous);
      ReplacedIsPrivate(r1, previous, v);
      UntouchedTwice(r, r1, r2, v);
    }
    NewStreamIsPrivate(r2, user, session, v);
    UntouchedTwice(r, r2, r2.(streamByUser := r2.streamByUser[user := session]), v);
  }

  /** A device is entered under the user that it belongs to. */
  ghost predicate DevicesMatch(r: Registry) {
    forall d :: d in r.userByDevice ==> DeviceOf(r.userByDevice[d]) == d
  }

  /** A batch leaves the users of the devices as they are. */
  lemma MessagesKeepDevices(r: Registry, user: User, objectId: string, m: FirstMessage, sendFails: bool)
    ensures HandleMessages(r, user, objectId, m, sendFails).userByDevice == r.userByDevice
  {
  }

  lemma StepDevices(r: Registry, e: Event)
    requires DevicesMatch(r) && IndexComplete(r)
    ensures DevicesMatch(Step(r, e))
  {
    match e
    case Connects(user, session) => ConnectEffect(r, user, session);
    case Disconnects(user, session) => RemoveUserEffect(r, user);
    case Messages(user, objectId, first, sendFails) => MessagesKeepDevices(r, user, objectId, first, sendFails);
    case Tick(ids) =>
  }

  lemma {:induction false} RunDevices(events: seq<Event>)
    ensures DevicesMatch(Run(EmptyRegistry(), events))
  {
    if events != [] {
      RunDevices(events[..|events| - 1]);
      RunKeeps(events[..|events| - 1]);
      StepDevices(Run(EmptyRegistry(), events[..|events| - 1]), events[|events| - 1]);
    }
  }

  /** Whoever disconnects, other users keep their streams and subscriptions. */
  lemma DisconnectLeavesOthers(r: Registry, user: User, session: SessionId, v: User)
    requires v != user
    ensures Untouched(r, Disconnect(r, user, session), v)
    ensures Disconnect(r, user, session).userByDevice == r.userByDevice
    ensures Disconnect(r, user, session).sessionByUser == r.sessionByUser
  {
    RemovalIsPrivate(r, user, v);
    DropIsPrivate(RemoveUser(r, user), user, v);
    UntouchedTwice(r, RemoveUser(r, user), DropStream(RemoveUser(r, user), user), v);
  }

  /** A tick removes no group that someone subscribes to. */
  lemma TickSparesSubscribed(r: Registry, ids: set<string>, o: string, v: User)
    requires Subscribes(r, o, v)
    ensures o in Step(r, Tick(ids)).groups && Step(r, Tick(ids)).groups[o] == r.groups[o]
  {
    assert r.groups[o].subscribers != map[];
  }

  /** A retired group is gone, and its object is refused until an init sync creates it again. */
  lemma RetiredIsGone(r: Registry, ids: set<string>, o: string, user: User, m: FirstMessage, sendFails: bool)
    ensures o in Retire(r, ids).groups <==> o in r.groups && o !in ids
    ensures o in r.groups && o !in ids ==> Retire(r, ids).groups[o] == r.groups[o]
    ensures o in ids && !m.isInit ==> HandleMessages(Retire(r, ids), user, o, m, sendFails) == Retire(r, ids)
    ensures Retire(r, ids).streamByUser == r.streamByUser && Retire(r, ids).userByDevice == r.userByDevice
  {
  }
}
