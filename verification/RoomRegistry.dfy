/** The hub's room registry and its critical sections (internal/api/chatroom/hub.go). In the
    value model rooms are numbered in the order they were created. */
module RoomRegistry {
  import opened Wrappers

  datatype RoomState = RoomState(lesson: int, clients: set<int>)

  /** `members` also remembers rooms that were taken out of `rooms`: a thread may still hold
      a reference to one. */
  datatype Hub = Hub(rooms: map<int, nat>, members: map<nat, RoomState>)

  predicate IndexOk(h: Hub) {
    forall l :: l in h.rooms ==> h.rooms[l] in h.members && h.members[h.rooms[l]].lesson == l
  }

  // ---------------------------------------------------------- critical sections

  function Register(h: Hub, client: int, lesson: int, blank: nat): Hub
    requires IndexOk(h)
  {
    if lesson in h.rooms then
      var r := h.rooms[lesson];
      h.(members := h.members[r := RoomState(lesson, h.members[r].clients + {client})])
    else
      Hub(h.rooms[lesson := blank], h.members[blank := RoomState(lesson, {client})])
  }

  /** The hub once the lesson has a room: a new one is filed under `blank`. */
  function Indexed(h: Hub, lesson: int, blank: nat): Hub {
    if lesson in h.rooms then h else Hub(h.rooms[lesson := blank], h.members[blank := RoomState(lesson, {})])
  }

  lemma RegisterInIndexed(h: Hub, client: int, lesson: int, blank: nat)
    requires IndexOk(h)
    ensures var g := Indexed(h, lesson, blank);
            var r := g.rooms[lesson];
            && r in g.members
            && Register(h, client, lesson, blank) ==
               g.(members := g.members[r := RoomState(lesson, g.members[r].clients + {client})])
  {
    var none: set<int> := {};
    assert none + {client} == {client};
    var g := Indexed(h, lesson, blank);
    var r := g.rooms[lesson];
    assert Register(h, client, lesson, blank).members == g.members[r := RoomState(lesson, g.members[r].clients + {client})];
  }

  function Lookup(h: Hub, lesson: int): Option<nat> {
    if lesson in h.rooms then Some(h.rooms[lesson]) else None
  }

  /** The new hub, whether the client was there, and whether the room is now empty. */
  function Remove(h: Hub, room: nat, client: int): (Hub, bool, bool)
    requires room in h.members
  {
    var before := h.members[room];
    var left := before.clients - {client};
    (h.(members := h.members[room := RoomState(before.lesson, left)]), client in before.clients, left == {})
  }

  /** Drops the room from the index if it is still the current one and still empty. */
  function Prune(h: Hub, lesson: int, room: nat): (Hub, bool)
    requires room in h.members
  {
    if lesson in h.rooms && h.rooms[lesson] == room && h.members[room].clients == {} then
      (h.(rooms := h.rooms - {lesson}), true)
    else (h, false)
  }

  /** unregister when nothing interferes: the three sections in a row. */
  function Unregister(h: Hub, client: int, lesson: int): (Hub, bool)
    requires IndexOk(h)
  {
    var room := Lookup(h, lesson);
    if room.None? then (h, false) else
    var (left, removed, empty) := Remove(h, room.value, client);
    if removed && empty then (Prune(left, lesson, room.value).0, true) else (left, removed)
  }

  function Connected(h: Hub, lesson: int): set<int>
    requires IndexOk(h)
  {
    if lesson in h.rooms then h.members[h.rooms[lesson]].clients else {}
  }

  /** Undisturbed, unregister takes exactly this client out of its lesson's room, drops the
      room exactly if nobody else was in it, touches no other lesson, and does nothing at all
      if the client was not there. */
  lemma UnregisterExactly(h: Hub, client: int, lesson: int)
    requires IndexOk(h)
    ensures var (n, removed) := Unregister(h, client, lesson);
            && IndexOk(n) && (removed <==> client in Connected(h, lesson)) && (!removed ==> n == h)
            && Connected(n, lesson) == Connected(h, lesson) - {client}
            && (forall l :: l != lesson ==> Connected(n, l) == Connected(h, l) && (l in n.rooms <==> l in h.rooms))
            && (removed ==> (lesson in n.rooms <==> Connected(h, lesson) != {client}))
  {
    var (n, removed) := Unregister(h, client, lesson);
    if client !in Connected(h, lesson) {
      if lesson in h.rooms {
        assert h.members[h.rooms[lesson]].clients - {client} == h.members[h.rooms[lesson]].clients;
        assert n.members == h.members;
      }
    } else {
      assert Connected(h, lesson) - {client} == {} <==> Connected(h, lesson) == {client};
    }
  }

  /** Unregistering undoes registering: who is connected where is as before. */
  lemma UnregisterUndoesRegister(h: Hub, client: int, lesson: int, blank: nat)
    requires IndexOk(h) && blank !in h.members && client !in Connected(h, lesson)
    ensures IndexOk(Register(h, client, lesson, blank))
    ensures var (n, removed) := Unregister(Register(h, client, lesson, blank), client, lesson);
            removed && IndexOk(n) && forall l :: Connected(n, l) == Connected(h, l)
  {
    var g := Register(h, client, lesson, blank);
    assert forall l :: l != lesson ==> Connected(g, l) == Connected(h, l);
    assert Connected(g, lesson) == Connected(h, lesson) + {client};
    UnregisterExactly(g, client, lesson);
  }

  // ----------------------------------------------------------------- the objects

  class Room {
    const lessonId: int
    ghost const id: nat
    var clients: set<int>

    constructor (lessonId: int, ghost id: nat)
      ensures this.lessonId == lessonId && this.id == id && clients == {}
    {
      this.lessonId, this.id := lessonId, id;
      clients := {};
    }
  }

  class Manager {
    var rooms: map<int, Room>
    ghost var all: seq<Room>

    /** Every indexed room is one of the rooms created, filed under its own lesson. */
    ghost predicate Valid()
      reads this
    {
      && (forall i :: 0 <= i < |all| ==> all[i].id == i)
      && (forall l :: l in rooms ==> rooms[l].id < |all| && all[rooms[l].id] == rooms[l] && rooms[l].lessonId == l)
    }

    ghost function View(): Hub
      reads this, all
    {
      Hub(map l | l in rooms :: rooms[l].id, map i: nat | i < |all| :: RoomState(all[i].lessonId, all[i].clients))
    }

    constructor ()
      ensures Valid() && all == [] && View() == Hub(map[], map[])
    {
      rooms, all := map[], [];
    }

    /** The indexed room of the lesson, created and indexed if there is none. */
    method RoomFor(lessonId: int) returns (room: Room)
      requires Valid()
      modifies this
      ensures Valid() && old(all) <= all && fresh(all[|old(all)|..])
      ensures room in all && (room in old(all) || fresh(room)) && lessonId in rooms && rooms[lessonId] == room
      ensures View() == Indexed(old(View()), lessonId, |old(all)|)
    {
      if lessonId in rooms {
        room := rooms[lessonId];
        return;
      }
      room := new Room(lessonId, |all|);
      rooms := rooms[lessonId := room];
      all := all + [room];
      ghost var after := Indexed(old(View()), lessonId, |old(all)|);
      assert View().rooms == after.rooms;
      assert View().members == after.members;
    }

    /** register, up to the metric updates: one section under the manager's write lock. */
    method RegisterClient(client: int, lessonId: int)
      requires Valid()
      modifies this, all
      ensures Valid() && old(all) <= all && fresh(all[|old(all)|..])
      ensures IndexOk(old(View())) && View() == Register(old(View()), client, lessonId, |old(all)|)
    {
      var room := RoomFor(lessonId);
      ghost var indexed := View();
      room.clients := room.clients + {client};
      assert View().members == indexed.members[room.id := RoomState(lessonId, indexed.members[room.id].clients + {client})];
      RegisterInIndexed(old(View()), client, lessonId, |old(all)|);
    }

    method FindRoom(lessonId: int) returns (room: Option<Room>)
      requires Valid()
      ensures room.None? <==> Lookup(View(), lessonId).None?
      ensures room.Some? ==> room.value in all && room.value.id == Lookup(View(), lessonId).value
    {
      if lessonId in rooms { return Some(rooms[lessonId]); }
      return None;
    }

    /** The section of unregister under the room's lock. */
    method RemoveClient(room: Room, client: int) returns (removed: bool, empty: bool)
      requires Valid() && room in all
      modifies room
      ensures Valid() && (View(), removed, empty) == Remove(old(View()), room.id, client)
    {
      removed := false;
      if client in room.clients {
        room.clients := room.clients - {client};
        removed := true;
      }
      empty := |room.clients| == 0;
      assert old(room.clients) - {client} == room.clients;
      assert View().members == Remove(old(View()), room.id, client).0.members;
    }

    /** The last section of unregister, under the manager's write lock. */
    method PruneRoom(lessonId: int, room: Room) returns (deleted: bool)
      requires Valid() && room in all
      modifies this`rooms
      ensures Valid() && (View(), deleted) == Prune(old(View()), lessonId, room.id)
    {
      deleted := false;
      if lessonId in rooms && rooms[lessonId] == room {
        if |room.clients| == 0 {
          rooms := rooms - {lessonId};
          deleted := true;
        }
      }
      assert View().members == old(View()).members;
      assert View().rooms == Prune(old(View()), lessonId, room.id).0.rooms;
    }

    method UnregisterClient(client: int, lessonId: int) returns (removed: bool)
      requires Valid()
      modifies this, all
      ensures Valid() && IndexOk(old(View())) && all == old(all)
      ensures (View(), removed) == Unregister(old(View()), client, lessonId)
    {
      var room := FindRoom(lessonId);
      if room.None? { return false; }
      var empty;
      removed, empty := RemoveClient(room.value, client);
      if removed && empty {
        var _ := PruneRoom(lessonId, room.value);
      }
    }

    method ConnectionCount(lessonId: int) returns (n: nat)
      requires Valid()
      ensures IndexOk(View()) && n == |Connected(View(), lessonId)|
    {
      if lessonId !in rooms { return 0; }
      return |rooms[lessonId].clients|;
    }
  }
}
