/**
  The registry's maps stay consistent in every reachable state, and what follows for connections
  and subscriptions.
 */
module RegistrySafety {
  import opened UserDeviceKeys
  import opened SessionRegistry

  ghost predicate Subscribes(r: Registry, objectId: string, user: User) {
    objectId in r.groups && user in r.groups[objectId].subscribers
  }

  ghost predicate Edits(r: Registry, objectId: string, user: User) {
    user in r.editingByUser && exists e :: e in r.editingByUser[user] && e.objectId == objectId
  }

  /** The reverse index is complete: every subscription is recorded under its user. */
  ghost predicate IndexComplete(r: Registry) {
    forall o, u :: Subscribes(r, o, u) ==> Edits(r, o, u)
  }

  ghost predicate IsCurrent(r: Registry, u: User) {
    DeviceOf(u) in r.userByDevice && r.userByDevice[DeviceOf(u)] == u
  }

  /** Only the latest user of a device subscribes, and the group knows it by its device key. */
  ghost predicate SubscribersCurrent(r: Registry) {
    forall o, u :: Subscribes(r, o, u) ==>
      IsCurrent(r, u) && UserDeviceKey(u) in r.groups[o].userByUserDevice && r.groups[o].userByUserDevice[UserDeviceKey(u)] == u
  }

  /** Only the latest user of a device has a stream, and the stream is that of its latest session. */
  ghost predicate StreamsCurrent(r: Registry) {
    forall u :: u in r.streamByUser ==>
      IsCurrent(r, u) && u in r.sessionByUser && r.sessionByUser[u] == r.streamByUser[u]
  }

  ghost predicate Inv(r: Registry) {
    IndexComplete(r) && SubscribersCurrent(r) && StreamsCurrent(r)
  }

  /** The user is connected nowhere and subscribed nowhere. */
  ghost predicate Gone(r: Registry, u: User) {
    u !in r.streamByUser && forall o :: !Subscribes(r, o, u)
  }

  lemma RemoveUserEffect(r: Registry, user: User)
    requires IndexComplete(r)
    ensures var r' := RemoveUser(r, user);
      && (forall o, u :: Subscribes(r', o, u) <==> Subscribes(r, o, u) && u != user)
      && (forall o, u :: u != user ==> (Edits(r', o, u) <==> Edits(r, o, u)))
      && (forall o :: o in r.groups <==> o in r'.groups)
      && (forall o :: o in r'.groups ==> r'.groups[o].userByUserDevice == r.groups[o].userByUserDevice)
      && r'.streamByUser == r.streamByUser && r'.sessionByUser == r.sessionByUser && r'.userByDevice == r.userByDevice
  {
    var r' := RemoveUser(r, user);
    forall o, u
      ensures Subscribes(r', o, u) <==> Subscribes(r, o, u) && u != user
    {
      if Subscribes(r, o, user) {
        assert Edits(r, o, user);
      }
    }
  }

  lemma RemoveUserKeeps(r: Registry, user: User)
    requires Inv(r)
    ensures Inv(RemoveUser(r, user))
    ensures forall o :: !Subscribes(RemoveUser(r, user), o, user)
  {
    RemoveUserEffect(r, user);
  }

  lemma DisconnectKeeps(r: Registry, user: User, session: SessionId)
    requires Inv(r)
    ensures Inv(Disconnect(r, user, session))
  {
    RemoveUserKeeps(r, user);
    DropStreamKeeps(RemoveUser(r, user), user);
  }

  /** `Connect`, after the previous user of the device has been removed. */
  lemma ConnectEffect(r: Registry, user: User, session: SessionId)
    requires IndexComplete(r)
    ensures var r', device := Connect(r, user, session), DeviceOf(user);
      && r'.userByDevice == r.userByDevice[device := user]
      && r'.sessionByUser == r.sessionByUser[user := session]
      && (forall u :: u in r'.streamByUser <==>
            u == user || (u in r.streamByUser && !(device in r.userByDevice && r.userByDevice[device] == u)))
      && r'.streamByUser[user] == session
      && (forall u :: u in r'.streamByUser && u != user ==> r'.streamByUser[u] == r.streamByUser[u])
      && (forall o, u :: Subscribes(r', o, u) <==>
            Subscribes(r, o, u) && !(device in r.userByDevice && r.userByDevice[device] == u))
      && (forall o, u :: Subscribes(r', o, u) ==> (Edits(r', o, u) <==> Edits(r, o, u)))
      && (forall o :: o in r'.groups ==> o in r.groups && r'.groups[o].userByUserDevice == r.groups[o].userByUserDevice)
  {
    var device := DeviceOf(user);
    var r1 := r.(sessionByUser := r.sessionByUser[user := session], userByDevice := r.userByDevice[device := user]);
    if device in r.userByDevice {
      var previous := r.userByDevice[device];
      var r2 := DropStream(r1, previous);
      assert forall o, u :: Subscribes(r2, o, u) <==> Subscribes(r, o, u);
      assert forall o, u :: Edits(r2, o, u) <==> Edits(r, o, u);
      RemoveUserEffect(r2, previous);
      var r3 := RemoveUser(r2, previous);
      var r' := Connect(r, user, session);
      assert r' == r3.(streamByUser := r3.streamByUser[user := session]);
      assert forall o, u :: Subscribes(r', o, u) <==> Subscribes(r3, o, u);
      assert forall o, u :: Edits(r', o, u) <==> Edits(r3, o, u);
    } else {
      var r' := Connect(r, user, session);
      assert forall o, u :: Subscribes(r', o, u) <==> Subscribes(r, o, u);
      assert forall o, u :: Edits(r', o, u) <==> Edits(r, o, u);
    }
  }

  lemma ConnectKeeps(r: Registry, user: User, session: SessionId)
    requires Inv(r)
    ensures Inv(Connect(r, user, session))
  {
    ConnectEffect(r, user, session);
  }

  lemma LeaveKeeps(r: Registry, objectId: string, user: User)
    requires Inv(r)
    ensures Inv(LeaveGroup(r, objectId, user))
    ensures forall o, u :: Subscribes(LeaveGroup(r, objectId, user), o, u) ==> Subscribes(r, o, u)
  {
    var r' := LeaveGroup(r, objectId, user);
    assert forall o, u :: Subscribes(r', o, u) ==> Subscribes(r, o, u);
    assert forall o, u :: Edits(r', o, u) <==> Edits(r, o, u);
  }

  lemma SubscribeKeeps(r: Registry, user: User, m: FirstMessage)
    requires Inv(r)
    ensures Inv(Subscribe(r, user, m))
    ensures forall o, u :: Subscribes(Subscribe(r, user, m), o, u) ==> Subscribes(r, o, u) || u == user
  {
    var r' := Subscribe(r, user, m);
    if r' != r {
      forall o, u | Subscribes(r', o, u)
        ensures Edits(r', o, u)
      {
        if u == user && o == m.objectId {
          assert Editing(m.objectId, m.origin) in r'.editingByUser[u];
        } else {
          assert Subscribes(r, o, u);
          assert Edits(r, o, u);
        }
      }
      SubscribedIsCurrent(r, user, m);
    }
  }

  lemma SubscribedIsCurrent(r: Registry, user: User, m: FirstMessage)
    requires Inv(r) && user in r.streamByUser && m.objectId in r.groups && user !in r.groups[m.objectId].subscribers
    ensures SubscribersCurrent(Subscribe(r, user, m))
  {
    var r' := Subscribe(r, user, m);
    forall o, u | Subscribes(r', o, u)
      ensures IsCurrent(r', u)
      ensures UserDeviceKey(u) in r'.groups[o].userByUserDevice && r'.groups[o].userByUserDevice[UserDeviceKey(u)] == u
    {
      if u != user {
        assert Subscribes(r, o, u);
        UserDeviceKeyInjective(u, user);
      }
    }
  }

  lemma NewGroupKeeps(r: Registry, objectId: string)
    requires Inv(r)
    ensures Inv(r.(groups := r.groups[objectId := EMPTY_GROUP]))
    ensures forall o, u :: Subscribes(r.(groups := r.groups[objectId := EMPTY_GROUP]), o, u) ==> Subscribes(r, o, u)
  {
    var r' := r.(groups := r.groups[objectId := EMPTY_GROUP]);
    forall o, u | Subscribes(r', o, u)
      ensures Subscribes(r, o, u)
    {
      assert o != objectId;
    }
    assert forall o, u :: Edits(r', o, u) <==> Edits(r, o, u);
  }

  lemma DropStreamEffect(r: Registry, user: User)
    ensures var r' := DropStream(r, user);
      && (forall o, u :: Subscribes(r', o, u) <==> Subscribes(r, o, u))
      && (forall o, u :: Edits(r', o, u) <==> Edits(r, o, u))
      && (forall u :: u in r'.streamByUser <==> u in r.streamByUser && u != user)
      && (forall u :: u in r'.streamByUser ==> r'.streamByUser[u] == r.streamByUser[u])
      && r'.groups == r.groups && r'.userByDevice == r.userByDevice && r'.sessionByUser == r.sessionByUser
  {
  }

  lemma DropStreamKeeps(r: Registry, user: User)
    requires Inv(r)
    ensures Inv(DropStream(r, user))
  {
    var r' := DropStream(r, user);
    DropStreamEffect(r, user);
    forall o, u | Subscribes(r', o, u)
      ensures IsCurrent(r', u)
      ensures UserDeviceKey(u) in r'.groups[o].userByUserDevice && r'.groups[o].userByUserDevice[UserDeviceKey(u)] == u
    {
      assert Subscribes(r, o, u);
    }
  }

  lemma MessagesKeep(r: Registry, user: User, objectId: string, m: FirstMessage, sendFails: bool)
    requires Inv(r)
    ensures var r' := HandleMessages(r, user, objectId, m, sendFails);
      && Inv(r')
      && (forall o, u :: Subscribes(r', o, u) ==> Subscribes(r, o, u) || (u == user && user in r.streamByUser))
      && (forall u :: u in r'.streamByUser ==> u in r.streamByUser)
  {
    if user !in r.streamByUser {
    } else if objectId in r.groups {
      var r1 := if m.isInit then LeaveGroup(r, objectId, user) else r;
      LeaveKeeps(r, objectId, user);
      var r2 := if user !in r1.groups[objectId].subscribers then Subscribe(r1, user, m) else r1;
      SubscribeKeeps(r1, user, m);
      DropStreamKeeps(r2, user);
      DropStreamEffect(r2, user);
    } else if m.isInit && m.origin.Client? {
      var r1 := r.(groups := r.groups[m.objectId := EMPTY_GROUP]);
      NewGroupKeeps(r, m.objectId);
      var r2 := Subscribe(r1, user, m);
      SubscribeKeeps(r1, user, m);
      DropStreamKeeps(r2, user);
      DropStreamEffect(r2, user);
    }
  }

  lemma RetireKeeps(r: Registry, ids: set<string>)
    requires Inv(r)
    ensures Inv(Retire(r, ids))
    ensures forall o, u :: Subscribes(Retire(r, ids), o, u) ==> Subscribes(r, o, u)
  {
    var r' := Retire(r, ids);
    assert forall o, u :: Edits(r', o, u) <==> Edits(r, o, u);
    assert forall o, u :: Subscribes(r', o, u) ==> Subscribes(r, o, u);
  }

  lemma StepKeeps(r: Registry, e: Event)
    requires Inv(r)
    ensures Inv(Step(r, e))
  {
    match e
    case Connects(user, session) => ConnectKeeps(r, user, session);
    case Disconnects(user, session) => DisconnectKeeps(r, user, session);
    case Messages(user, objectId, first, sendFails) => MessagesKeep(r, user, objectId, first, sendFails);
    case Tick(ids) => RetireKeeps(r, ids);
  }

  /** In every reachable state the reverse index is complete and every device has one current user. */
  lemma {:induction false} RunKeeps(events: seq<Event>)
    ensures Inv(Run(EmptyRegistry(), events))
  {
    if events != [] {
      RunKeeps(events[..|events| - 1]);
      StepKeeps(Run(EmptyRegistry(), events[..|events| - 1]), events[|events| - 1]);
    }
  }

  // One connection per device ----------------------------------------------------------------------

  /** In every reachable state, a device has at most one stream and one subscription per group. */
  lemma OneConnectionPerDevice(events: seq<Event>, u: User, v: User)
    requires DeviceOf(u) == DeviceOf(v)
    ensures var r := Run(EmptyRegistry(), events);
      && (u in r.streamByUser && v in r.streamByUser ==> u == v)
      && forall o :: Subscribes(r, o, u) && Subscribes(r, o, v) ==> u == v
  {
    RunKeeps(events);
  }

  /**
    A `Disconnect` ends no connection but its own: whatever has replaced the connection that sent
    it, streams of other sessions stay and so do the subscriptions of their users.
   */
  lemma LateDisconnectIsHarmless(events: seq<Event>, user: User, session: SessionId, v: User)
    requires var r := Run(EmptyRegistry(), events);
      v in r.streamByUser && (v != user || r.streamByUser[v] != session)
    ensures var r := Run(EmptyRegistry(), events);
      var r' := Disconnect(r, user, session);
      && v in r'.streamByUser && r'.streamByUser[v] == r.streamByUser[v]
      && forall o :: Subscribes(r', o, v) <==> Subscribes(r, o, v)
  {
    RunKeeps(events);
    var r := Run(EmptyRegistry(), events);
    if v != user {
      RemoveUserEffect(r, user);
      DropStreamEffect(RemoveUser(r, user), user);
    }
  }

  // Removal is complete and lasting ------------------------------------------------------------------

  /** After a `Disconnect` of its current session, a user is subscribed nowhere. */
  lemma DisconnectRemovesEverywhere(events: seq<Event>, user: User, session: SessionId)
    requires var r := Run(EmptyRegistry(), events);
      user in r.sessionByUser ==> r.sessionByUser[user] == session
    ensures Gone(Disconnect(Run(EmptyRegistry(), events), user, session), user)
    ensures user !in Disconnect(Run(EmptyRegistry(), events), user, session).editingByUser
  {
    RunKeeps(events);
    var r := Run(EmptyRegistry(), events);
    RemoveUserKeeps(r, user);
    DropStreamEffect(RemoveUser(r, user), user);
  }

  /**
    A `Connect` leaves no trace of the device's previous user; if that is the same user, its old
    subscriptions are gone all the same, and its stream is the new one.
   */
  lemma ConnectRemovesPrevious(events: seq<Event>, user: User, session: SessionId, previous: User)
    requires DeviceOf(previous) == DeviceOf(user)
    ensures var r' := Connect(Run(EmptyRegistry(), events), user, session);
      && (forall o :: !Subscribes(r', o, previous))
      && (previous in r'.streamByUser <==> previous == user)
      && r'.streamByUser[user] == session
  {
    RunKeeps(events);
    var r := Run(EmptyRegistry(), events);
    ConnectEffect(r, user, session);
    forall o
      ensures !Subscribes(Connect(r, user, session), o, previous)
    {
      if Subscribes(r, o, previous) {
        assert IsCurrent(r, previous);
      }
    }
  }

  lemma GoneStep(r: Registry, user: User, e: Event)
    requires Inv(r) && Gone(r, user) && !(e.Connects? && e.user == user)
    ensures Gone(Step(r, e), user)
  {
    match e
    case Connects(other, session) => ConnectEffect(r, other, session);
    case Disconnects(other, session) =>
      RemoveUserEffect(r, other);
      DropStreamEffect(RemoveUser(r, other), other);
    case Messages(other, objectId, first, sendFails) => MessagesKeep(r, other, objectId, first, sendFails);
    case Tick(ids) => RetireKeeps(r, ids);
  }

  /** A user that is gone stays gone, whatever messages are still under way, until it connects again. */
  lemma {:induction false} GoneUntilReconnect(r: Registry, user: User, events: seq<Event>)
    requires Inv(r) && Gone(r, user)
    requires forall e :: e in events ==> !(e.Connects? && e.user == user)
    ensures Inv(Run(r, events)) && Gone(Run(r, events), user)
  {
    if events != [] {
      var front, last := events[..|events| - 1], events[|events| - 1];
      GoneUntilReconnect(r, user, front);
      assert last in events;
      StepKeeps(Run(r, front), last);
      GoneStep(Run(r, front), user, last);
    }
  }
}
