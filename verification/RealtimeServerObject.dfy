/**
  The server object whose handlers change the registry maps in place, each proved to do what
  `SessionRegistry` says.
 */
module RealtimeServerObject {
  import opened UserDeviceKeys
  import opened SessionRegistry

  class RealtimeServer {
    var userByDevice: map<UserDevice, User>
    var sessionByUser: map<User, SessionId>
    var editingByUser: map<User, set<Editing>>
    var streamByUser: map<User, SessionId>
    var groups: map<string, Group>

    constructor ()
      ensures View() == EmptyRegistry()
    {
      userByDevice, sessionByUser, editingByUser, streamByUser, groups := map[], map[], map[], map[], map[];
    }

    function View(): Registry
      reads this
    {
      Registry(userByDevice, sessionByUser, editingByUser, streamByUser, groups)
    }

    /** `AllGroup::remove_user`. */
    method RemoveUserFromGroup(objectId: string, user: User)
      modifies this`groups
      ensures View() == LeaveGroup(old(View()), objectId, user)
    {
      if objectId in groups {
        groups := groups[objectId := WithoutSubscriber(groups[objectId], user)];
      }
    }

    /** `remove_user`: takes the user's entry out of the index and walks it. */
    method RemoveUserEverywhere(user: User)
      modifies this`editingByUser, this`groups
      ensures View() == RemoveUser(old(View()), user)
    {
      if user in editingByUser {
        ghost var before := groups;
        var entry := editingByUser[user];
        editingByUser := editingByUser - {user};
        var todo := entry;
        while todo != {}
          invariant todo <= entry
          invariant editingByUser == old(editingByUser) - {user}
          invariant groups == LeaveGroups(before, entry - todo, user)
          decreases todo
        {
          var editing :| editing in todo;
          ghost var done := entry - todo;
          LeaveOneMore(before, done, editing, user);
          assert entry - (todo - {editing}) == done + {editing};
          todo := todo - {editing};
          RemoveUserFromGroup(editing.objectId, user);
        }
        assert entry - todo == entry;
      }
    }

    method HandleConnect(user: User, session: SessionId)
      modifies this
      ensures View() == Connect(old(View()), user, session)
    {
      sessionByUser := sessionByUser[user := session];
      var device := DeviceOf(user);
      var known := device in userByDevice;
      var previous := if known then userByDevice[device] else user;
      userByDevice := userByDevice[device := user];
      if known {
        streamByUser := streamByUser - {previous};
        RemoveUserEverywhere(previous);
      }
      streamByUser := streamByUser[user := session];
    }

    method HandleDisconnect(user: User, session: SessionId)
      modifies this
      ensures View() == Disconnect(old(View()), user, session)
    {
      if user in sessionByUser && sessionByUser[user] != session {
        return;
      }
      RemoveUserEverywhere(user);
      streamByUser := streamByUser - {user};
    }

    method SubscribeGroup(user: User, m: FirstMessage)
      modifies this`editingByUser, this`groups
      ensures View() == Subscribe(old(View()), user, m)
    {
      if user in streamByUser && m.objectId in groups {
        var group := groups[m.objectId];
        if user !in group.subscribers {
          var known := if user in editingByUser then editingByUser[user] else {};
          editingByUser := editingByUser[user := known + {Editing(m.objectId, m.origin)}];
          var key := UserDeviceKey(user);
          var subscribers := group.subscribers;
          if key in group.userByUserDevice {
            subscribers := subscribers - {group.userByUserDevice[key]};
          }
          groups := groups[m.objectId := Group(subscribers[user := m.origin], group.userByUserDevice[key := user])];
        }
      }
    }

    method HandleCollabMessage(user: User, objectId: string, m: FirstMessage, sendFails: bool)
      modifies this
      ensures View() == HandleMessages(old(View()), user, objectId, m, sendFails)
    {
      if user !in streamByUser {
        return;
      }
      if objectId in groups {
        if m.isInit {
          RemoveUserFromGroup(objectId, user);
        }
        if user !in groups[objectId].subscribers {
          SubscribeGroup(user, m);
        }
      } else if m.isInit && m.origin.Client? {
        groups := groups[m.objectId := EMPTY_GROUP];
        SubscribeGroup(user, m);
      } else {
        return;
      }
      if sendFails {
        streamByUser := streamByUser - {user};
      }
    }

    /** `AllGroup::tick`: `idle` are the groups not modified for longer than their timeout. */
    method TickGroups(idle: set<string>) returns (ids: set<string>)
      modifies this`groups
      ensures CanRetire(old(View()), ids) && ids <= idle && |ids| <= 6
      ensures forall id :: id in ids ==> id in old(groups) && old(groups)[id].subscribers == map[]
      ensures |ids| <= 5 ==>
        forall id :: id in old(groups) && id in idle && old(groups)[id].subscribers == map[] ==> id in ids
      ensures View() == Retire(old(View()), ids)
    {
      ids := {};
      var todo := groups.Keys;
      while todo != {}
        invariant todo <= groups.Keys && groups == old(groups)
        invariant ids !! todo && |ids| <= 5 && ids <= idle
        invariant forall id :: id in ids ==> id in groups && groups[id].subscribers == map[]
        invariant forall id :: id in groups && id in idle && groups[id].subscribers == map[] ==> id in todo || id in ids
        decreases todo
      {
        var id :| id in todo;
        todo := todo - {id};
        if id in idle && groups[id].subscribers == map[] {
          ids := ids + {id};
          if |ids| > 5 {
            break;
          }
        }
      }
      groups := groups - ids;
    }
  }

  lemma LeaveOneMore(groups: map<string, Group>, done: set<Editing>, editing: Editing, user: User)
    ensures var soFar := LeaveGroups(groups, done, user);
      LeaveGroups(groups, done + {editing}, user) ==
        if editing.objectId in soFar
        then soFar[editing.objectId := WithoutSubscriber(soFar[editing.objectId], user)]
        else soFar
  {
    var left, right := LeaveGroups(groups, done + {editing}, user), LeaveGroups(groups, done, user);
    forall o | o in groups && o != editing.objectId
      ensures left[o] == right[o]
    {
      assert (exists e :: e in done + {editing} && e.objectId == o) <==> (exists e :: e in done && e.objectId == o);
    }
    if editing.objectId in groups {
      assert editing in done + {editing};
      var g := groups[editing.objectId];
      assert (g.subscribers - {user}) - {user} == g.subscribers - {user};
    }
  }
}
