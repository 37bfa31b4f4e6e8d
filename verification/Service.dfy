/** The service object: handlers that read and write the shared store and the rooms reached through it. */
module Service {
  import opened Wrappers
  import opened Store
  import opened Keys
  import opened Rooms
  import opened Session

  /** What the worker has to send: nothing, the user's id back to the sender, or the message to others. */
  datatype Outgoing = Nothing | Acknowledge(user: Uuid) | Forward(users: seq<User>)

  ghost predicate Answers(out: Outgoing, reply: Reply) {
    match reply
    case Failed => out == Nothing
    case Ack(user) => out == Acknowledge(user)
    case Relay(to) => out.Forward? && (set u | u in out.users) == to && Distinct(out.users)
  }

  const NIL_UUID: Uuid := Uuid([0, 0, 0, 0, 0, 0, 0, 0, 0, 0, 0, 0, 0, 0, 0, 0])

  /** Whom the worker writes to. An acknowledgement goes to a user without an id, and an empty message to
      nobody. */
  function Recipients(out: Outgoing, addr: Addr, size: nat): seq<User> {
    match out
    case Nothing => []
    case Acknowledge(_) => [User(NIL_UUID, addr)]
    case Forward(users) => if size == 0 then [] else users
  }

  /** The ids of the recipients whose write fails, in order. */
  function FailedIds(users: seq<User>, fails: User -> bool): seq<Uuid> {
    if users == [] then []
    else
      var last := users[|users| - 1];
      FailedIds(users[..|users| - 1], fails) + if fails(last) then [last.id] else []
  }

  lemma {:induction false} FailedIdsAre(users: seq<User>, fails: User -> bool)
    ensures forall id :: id in FailedIds(users, fails) <==> exists u :: u in users && fails(u) && u.id == id
  {
    if users != [] {
      var n := |users| - 1;
      FailedIdsAre(users[..n], fails);
      assert users == users[..n] + [users[n]];
    }
  }

  class Service {
    const db: MemoryDb<Value>
    ghost var rooms: set<Room>
    ghost var joined: set<Join>

    /** Everything that was asked of the service so far. */
    ghost var history: seq<Session.Event>

    ghost function UserTable(): map<Room, map<Uuid, Addr>>
      reads `rooms, rooms
    {
      map r | r in rooms :: r.Members()
    }

    ghost predicate RoomsValid()
      reads `rooms, rooms
    {
      forall r :: r in rooms ==> r.Valid()
    }

    ghost function Model(): World
      reads this, db, rooms
    {
      World(db.rows, UserTable(), joined)
    }

    ghost predicate Valid()
      reads this, db, rooms
    {
      RoomsValid() && Inv(Model())
    }

    /** The state is where the history leads, so that all that holds after every run holds of it. */
    ghost predicate Recorded()
      reads this, db, rooms
    {
      After(history, Model(), db.dataTTL)
    }

    constructor (dataTTL: int)
      ensures Valid() && Recorded() && fresh(db) && db.dataTTL == dataTTL && Model() == EMPTY
    {
      db := new MemoryDb(dataTTL);
      rooms, joined, history := {}, {}, [];
    }

    /** Adds what has just been done to the history; `w` is the state before it. */
    ghost method Record(w: World, e: Session.Event)
      requires After(history, w, db.dataTTL) && Enabled(w, e) && Model() == Step(w, e, db.dataTTL)
      modifies `history
      ensures Recorded() && history == old(history) + [e]
    {
      hide Enabled, Step, UserTable;
      RunOneMore(EMPTY, history, e, db.dataTTL);
      history := history + [e];
    }

    method Lookup(addr: Addr, now: int) returns (found: Found)
      modifies db
      ensures db.rows == Session.GetRoom(old(db.rows), addr, now).0
      ensures found == Session.GetRoom(old(db.rows), addr, now).1
    {
      hide RoomKey;
      var client := db.GetData(addr.text, now);
      if client.None? || client.value.RoomRef? {
        return Missing;
      }
      var info := client.value.info;
      var roomData := db.GetData(KeyOf(info), now);
      if roomData.None? || roomData.value.Client? {
        return Missing;
      }
      return Found(info, roomData.value.room);
    }

    method GetRoom(addr: Addr, now: int) returns (found: Found)
      requires Valid()
      modifies db
      ensures Valid() && Model() == old(Model()).(rows := Session.GetRoom(old(db.rows), addr, now).0)
      ensures found == Session.GetRoom(old(db.rows), addr, now).1
      ensures found.Found? ==> found.room in rooms
    {
      Session.GetRoomKeepsInv(Model(), addr, now);
      KnownRooms();
      hide Inv, Session.GetRoom, RoomsValid, UserTable;
      found := Lookup(addr, now);
    }

    /** Allocates an empty room. */
    method NewRoom(game: Uuid, id: Uuid) returns (room: Room)
      requires RoomsValid()
      modifies `rooms
      ensures fresh(room) && room.game == game && room.room == id
      ensures rooms == old(rooms) + {room} && RoomsValid()
      ensures UserTable() == old(UserTable())[room := map[]]
    {
      room := new Room(game, id);
      rooms := rooms + {room};
    }

    /** Puts a user into a room that the store refers to. */
    method Seat(room: Room, user: User)
      requires RoomsValid() && room in rooms
      modifies room
      ensures RoomsValid()
      ensures UserTable() == old(UserTable())[room := old(UserTable())[room][user.id := user.conn]]
    {
      room.SetUser(user);
    }

    /** Takes a user out of a room that the store refers to. */
    method Unseat(room: Room, user: Uuid)
      requires RoomsValid() && room in rooms
      modifies room
      ensures RoomsValid()
      ensures UserTable() == old(UserTable())[room := old(UserTable())[room] - {user}]
      ensures room.Users() == Without(old(room.Users()), user)
    {
      room.RemoveUser(user);
    }

    method Join(room: Room, info: Info, addr: Addr)
      requires RoomsValid() && room in rooms
      modifies `joined, room
      ensures RoomsValid() && Model() == Enter(old(Model()), room, info, addr)
    {
      KnownRooms();
      hide RoomsValid, UserTable;
      Seat(room, User(info.user, addr));
      joined := joined + {Session.Join(info.game, info.room, info.user, addr)};
    }

    method Register(addr: Addr, info: Info, now: int) returns (value: Option<Value>)
      requires Valid()
      modifies db
      ensures db.rows == Session.Register(old(db.rows), addr, info, now).0
      ensures value == Session.Register(old(db.rows), addr, info, now).1
      ensures value.Some? && value.value.RoomRef? ==> value.value.room in rooms
    {
      StoredRooms(KeyOf(info));
      hide Inv, RoomKey, RoomsValid, UserTable;
      db.SetData(addr.text, Client(info), now);
      value := db.GetData(KeyOf(info), now);
    }

    method FindOrMake(addr: Addr, info: Info, now: int) returns (room: Option<Room>, ghost made: Option<Room>)
      requires Valid()
      modifies `rooms, db
      ensures RoomsValid() && fresh(rooms - old(rooms))
      ensures Model() == Session.FindOrMake(old(Model()), addr, info, now, made).0
      ensures room == Session.FindOrMake(old(Model()), addr, info, now, made).1
      ensures room.Some? ==> room.value in rooms
      ensures made.Some? ==> fresh(made.value) && Allocates(old(Model()), Some(info), made)
      ensures KeyOf(info) !in old(db.rows) ==> made.Some?
    {
      KnownRooms();
      hide Inv, KeyOf, RoomsValid, UserTable, Session.Register;
      RegisterFinds(db.rows, addr, info, now);
      made := None;
      var value := Register(addr, info, now);
      if value.Some? {
        room := if value.value.RoomRef? then Some(value.value.room) else None;
        return;
      }
      var r := NewRoom(info.game, info.room);
      db.SetData(KeyOf(info), RoomRef(r), now);
      room, made := Some(r), Some(r);
    }

    method SetNewUser(addr: Addr, info: Info, now: int) returns (ok: bool, ghost made: Option<Room>)
      requires Valid()
      modifies `rooms, `joined, db, rooms
      ensures Valid() && fresh(rooms - old(rooms))
      ensures Model() == Session.SetNewUser(old(Model()), addr, info, now, made).0
      ensures ok == Session.SetNewUser(old(Model()), addr, info, now, made).1
      ensures made.Some? ==> fresh(made.value) && Allocates(old(Model()), Some(info), made)
      ensures KeyOf(info) !in old(db.rows) ==> made.Some?
    {
      ghost var w := Model();
      var room;
      room, made := FindOrMake(addr, info, now);
      KnownRooms();
      hide Inv, KeyOf, RoomsValid, UserTable, Session.FindOrMake, Allocates, Enter;
      Session.SetNewUserKeepsInv(w, addr, info, now, made);
      if room.None? {
        return false, made;
      }
      Join(room.value, info, addr);
      ok := true;
    }

    method CreateRoom(token: Option<Info>, ttl: int, now: int) returns (ok: bool, ghost made: Option<Room>)
      requires Valid() && Recorded()
      modifies this, db
      ensures Valid() && fresh(rooms - old(rooms))
      ensures Recorded() && history == old(history) + [Make(token, ttl, now, made)]
      ensures Model() == Session.CreateRoom(old(Model()), token, ttl, now, made)
      ensures ok <==> token.Some? && KeyOf(token.value) !in old(db.rows)
      ensures made.Some? ==> fresh(made.value) && Allocates(old(Model()), token, made)
    {
      ghost var w := Model();
      KnownRooms();
      hide Inv, RoomKey, RoomsValid, UserTable, After, Message, Session.RemoveUser, Swept;
      ok, made := false, None;
      if token.Some? {
        var stored := db.GetData(KeyOf(token.value), now);
        if stored.None? {
          var room := NewRoom(token.value.game, token.value.room);
          SetRoom(KeyOf(token.value), room, ttl, now);
          ok, made := true, Some(room);
        }
      }
      Session.CreateKeepsInv(w, token, ttl, now, made);
      Record(w, Make(token, ttl, now, made));
    }

    method SetRoom(key: string, room: Room, ttl: int, now: int)
      modifies db
      ensures db.rows == old(db.rows)[key := Row(RoomRef(room), now + ttl)]
    {
      if ttl != 0 {
        db.SetDataWithTTL(key, RoomRef(room), ttl, now);
      } else {
        db.SetData(key, RoomRef(room), now);
      }
    }

    /** One lookup of GetDeletedRooms. */
    method Ask(game: Uuid, room: Uuid, now: int) returns (stored: bool)
      requires Valid() && Recorded()
      modifies db, `history
      ensures Valid() && Model() == Step(old(Model()), Session.Ask(game, room, now), db.dataTTL)
      ensures Recorded() && history == old(history) + [Session.Ask(game, room, now)]
      ensures stored == (RoomKey(game, room) in old(db.rows)) && db.rows.Keys == old(db.rows).Keys
    {
      hide Inv, RoomKey, RoomsValid, UserTable, After, Message, Session.CreateRoom, Session.RemoveUser, Swept;
      hide Allocates;
      ghost var w := Model();
      Session.StepKeepsInv(w, Session.Ask(game, room, now), db.dataTTL);
      var value := db.GetData(RoomKey(game, room), now);
      stored := value.Some?;
      Record(w, Session.Ask(game, room, now));
    }

    /** GetDeletedRooms, for a valid token: of the rooms asked for, those that are still stored. */
    method GetDeletedRooms(ids: set<(Uuid, Uuid)>, now: int) returns (stored: set<(Uuid, Uuid)>)
      requires Valid() && Recorded()
      modifies db, `history
      ensures Valid() && Recorded()
      ensures stored == set id | id in ids && RoomKey(id.0, id.1) in old(db.rows)
      ensures UserTable() == old(UserTable()) && db.rows.Keys == old(db.rows).Keys
    {
      hide Inv, RoomKey, RoomsValid, UserTable, After;
      stored := {};
      var left := ids;
      while left != {}
        invariant left <= ids && Valid() && Recorded()
        invariant stored == set id | id in ids - left && RoomKey(id.0, id.1) in old(db.rows)
        invariant UserTable() == old(UserTable()) && db.rows.Keys == old(db.rows).Keys
        decreases left
      {
        var id :| id in left;
        var found := Ask(id.0, id.1, now);
        if found {
          stored := stored + {id};
        }
        left := left - {id};
      }
    }

    /** One sweep of the store. */
    method Sweep(now: int)
      requires Valid() && Recorded()
      modifies db, `history
      ensures Valid() && Model() == Step(old(Model()), Expire(now), db.dataTTL)
      ensures Recorded() && history == old(history) + [Expire(now)]
    {
      hide Inv, RoomsValid, UserTable, After, Message, Session.CreateRoom, Session.RemoveUser, Touch, Allocates;
      ghost var w := Model();
      Session.StepKeepsInv(w, Expire(now), db.dataTTL);
      db.RemoveOldData(now);
      Record(w, Expire(now));
    }

    /** RemoveUser, apart from the record. */
    method Expel(addr: Addr, user: Uuid, now: int) returns (ok: bool)
      requires Valid()
      modifies db, rooms
      ensures Valid() && Model() == Session.RemoveUser(old(Model()), addr, user, now)
      ensures ok == Session.GetRoom(old(db.rows), addr, now).1.Found?
      ensures var found := Session.GetRoom(old(db.rows), addr, now).1;
              forall r :: r in rooms ==>
                r.Users() == if found.Found? && found.room == r then Without(old(r.Users()), user)
                             else old(r.Users())
    {
      Session.DropKeepsInv(Model(), addr, user, now);
      hide Inv, Session.GetRoom, ById, Without;
      var found := GetRoom(addr, now);
      if found.Missing? {
        return false;
      }
      Unseat(found.room, user);
      ok := true;
    }

    method RemoveUser(addr: Addr, user: Uuid, now: int) returns (ok: bool)
      requires Valid() && Recorded()
      modifies db, rooms, `history
      ensures Valid() && Model() == Session.RemoveUser(old(Model()), addr, user, now)
      ensures Recorded() && history == old(history) + [Drop(addr, user, now)]
      ensures ok == Session.GetRoom(old(db.rows), addr, now).1.Found?
      // The list keeps its order, and no other room is touched.
      ensures var found := Session.GetRoom(old(db.rows), addr, now).1;
              forall r :: r in rooms ==>
                r.Users() == if found.Found? && found.room == r then Without(old(r.Users()), user)
                             else old(r.Users())
    {
      hide Inv, Session.GetRoom, Session.RemoveUser, ById, Without, After, UserTable, RoomsValid;
      ghost var w := Model();
      ok := Expel(addr, user, now);
      Record(w, Drop(addr, user, now));
    }

    /** The users of a room without the sender's own entry. */
    static method OthersOf(users: seq<User>, me: Uuid, addr: Addr) returns (others: seq<User>)
      requires Distinct(users)
      ensures Distinct(others) && (set u | u in others) == Others(ById(users), me, addr)
    {
      others := [];
      for i := 0 to |users|
        invariant forall u :: u in others <==> u in users[..i] && !(u.id == me && u.conn == addr)
        invariant Distinct(others)
      {
        var u := users[i];
        assert users[..i + 1] == users[..i] + [u];
        if u.id == me && addr == u.conn {
          continue;
        }
        others := others + [u];
      }
      assert users[..|users|] == users;
      ByIdMembers(users);
      OthersMembers(ById(users), me, addr);
    }

    /** GetUsersAndMessage, apart from the record. */
    method Respond(addr: Addr, size: nat, token: Option<Info>, now: int)
      returns (out: Outgoing, ghost made: Option<Room>)
      requires Valid()
      modifies `rooms, `joined, db, rooms
      ensures Valid() && fresh(rooms - old(rooms))
      ensures Model() == Message(old(Model()), addr, size, token, now, made).0
      ensures Answers(out, Message(old(Model()), addr, size, token, now, made).1)
      ensures made.Some? ==> fresh(made.value) && Allocates(old(Model()), token, made)
      ensures MakesRoom(old(Model()), Say(addr, size, token, now, made)) ==> made.Some?
      ensures out.Forward? ==> rooms == old(rooms) && forall r :: r in rooms ==> r.Users() == old(r.Users())
    {
      hide Inv, Session.GetRoom, Session.SetNewUser, ById;
      GetRoomKeepsKeys(db.rows, addr, now);
      made := None;
      var found := GetRoom(addr, now);
      if found.Missing? {
        if token.None? {
          return Nothing, made;
        }
        var ok;
        ok, made := SetNewUser(addr, token.value, now);
        return if ok then Acknowledge(token.value.user) else Nothing, made;
      }
      if TokenSized(size) {
        return Acknowledge(found.info.user), made;
      }
      var others := OthersOf(found.room.Users(), found.info.user, addr);
      out := Forward(others);
    }

    method GetUsersAndMessage(addr: Addr, size: nat, token: Option<Info>, now: int)
      returns (out: Outgoing, ghost made: Option<Room>)
      requires Valid() && Recorded()
      modifies this, db, rooms
      ensures Valid() && fresh(rooms - old(rooms))
      ensures Recorded() && history == old(history) + [Say(addr, size, token, now, made)]
      ensures Model() == Message(old(Model()), addr, size, token, now, made).0
      // Nothing on failure, the user's id on an acknowledgement, each user once on a relay.
      ensures var reply := Message(old(Model()), addr, size, token, now, made).1;
              && (reply.Failed? <==> out == Nothing)
              && (reply.Ack? ==> out == Acknowledge(reply.user))
              && (reply.Relay? ==>
                    out.Forward? && Distinct(out.users) && forall u :: u in out.users <==> u in reply.to)
      ensures made.Some? ==> fresh(made.value) && Allocates(old(Model()), token, made)
      ensures out.Forward? ==> rooms == old(rooms) && forall r :: r in rooms ==> r.Users() == old(r.Users())
    {
      hide Inv, Message, After, UserTable, RoomsValid;
      ghost var w := Model();
      out, made := Respond(addr, size, token, now);
      Record(w, Say(addr, size, token, now, made));
    }

    /** One removal on behalf of a sender, who stays registered. */
    method RemoveFailed(addr: Addr, user: Uuid, now: int, ghost sender: Found)
      requires Valid() && Recorded()
      requires sender.Found? ==> sender.room in rooms && Registered(db.rows, addr, sender.info, sender.room, now)
      modifies db, rooms, `history
      ensures Valid() && Recorded() && Model() == Session.RemoveUser(old(Model()), addr, user, now)
      ensures sender.Found? ==> Registered(db.rows, addr, sender.info, sender.room, now)
      ensures sender.Found? ==> forall r :: r in rooms ==>
                r.Users() == if r == sender.room then Without(old(r.Users()), user) else old(r.Users())
    {
      hide Inv, Session.RemoveUser, Session.GetRoom, Without, Registered, After;
      if sender.Found? {
        GetRoomRegistered(db.rows, addr, now, addr, sender.info, sender.room, now);
        KnownRooms();
        FailedWriteRemoved(Model(), addr, sender.info, sender.room, user, now);
      }
      var _ := RemoveUser(addr, user, now);
    }

    /** Writes to each recipient, and removes from the sender's room every one whose write fails. If the
        sender is registered, `sender` says with what token and room. */
    method WriteTo(addr: Addr, to: seq<User>, fails: User -> bool, now: int, ghost sender: Found)
      returns (failed: seq<Uuid>)
      requires Valid() && Recorded()
      requires sender.Found? ==> sender.room in rooms && Registered(db.rows, addr, sender.info, sender.room, now)
      modifies db, rooms, `history
      ensures Valid() && Recorded()
      ensures failed == FailedIds(to, fails)
      ensures Model() == RemoveAll(old(Model()), addr, failed, now)
      ensures sender.Found? ==> forall r :: r in rooms ==>
                r.Users() == if r == sender.room then WithoutAll(old(r.Users()), failed) else old(r.Users())
    {
      hide Inv, Session.RemoveUser, Session.GetRoom, Without, WithoutAll, Registered, After;
      KnownRooms();
      failed := [];
      if sender.Found? {
        WithoutNone(sender.room.Users());
      }
      for i := 0 to |to|
        invariant Valid() && Recorded()
        invariant failed == FailedIds(to[..i], fails)
        invariant Model() == RemoveAll(old(Model()), addr, failed, now)
        invariant sender.Found? ==> Registered(db.rows, addr, sender.info, sender.room, now)
        invariant sender.Found? ==> forall r :: r in rooms ==>
                    r.Users() == if r == sender.room then WithoutAll(old(r.Users()), failed) else old(r.Users())
      {
        assert to[..i + 1][..i] == to[..i];
        if fails(to[i]) {
          if sender.Found? {
            WithoutOneMore(old(sender.room.Users()), failed, to[i].id);
          }
          RemoveFailed(addr, to[i].id, now, sender);
          assert (failed + [to[i].id])[..|failed|] == failed;
          failed := failed + [to[i].id];
        }
      }
      assert to[..|to|] == to;
    }

    /** One round of sendWorker: serves a message, writes to each recipient, and removes from the sender's
        room every recipient whose write fails. */
    method Serve(addr: Addr, size: nat, token: Option<Info>, now: int, fails: User -> bool)
      returns (out: Outgoing, to: seq<User>, failed: seq<Uuid>, ghost made: Option<Room>)
      requires Valid() && Recorded()
      modifies this, db, rooms
      ensures Valid() && Recorded()
      ensures var reply := Message(old(Model()), addr, size, token, now, made).1;
              && (reply.Failed? <==> out == Nothing)
              && (reply.Ack? ==> out == Acknowledge(reply.user))
              && (reply.Relay? ==>
                    out.Forward? && Distinct(out.users) && forall u :: u in out.users <==> u in reply.to)
      // An acknowledgement goes back to the sender, a message that is not empty to the users it is relayed to.
      ensures out.Nothing? ==> to == []
      ensures out.Acknowledge? ==> |to| == 1 && to[0].conn == addr
      ensures out.Forward? ==> to == if size == 0 then [] else out.users
      // The ids of those whose write failed.
      ensures forall id :: id in failed <==> exists u :: u in to && fails(u) && u.id == id
      ensures Model() == RemoveAll(Message(old(Model()), addr, size, token, now, made).0, addr, failed, now)
      ensures made.Some? ==> fresh(made.value) && Allocates(old(Model()), token, made)
      // After a relay each list of users keeps its order, and only the sender's room loses the failed ones.
      ensures out.Forward? ==>
                var found := Session.GetRoom(old(db.rows), addr, now).1;
                && found.Found? && rooms == old(rooms)
                && forall r :: r in rooms ==>
                     r.Users() == if r == found.room then WithoutAll(old(r.Users()), failed) else old(r.Users())
    {
      hide Inv, Message, Allocates, RemoveAll, WithoutAll, Session.GetRoom, Registered, After, FailedIds;
      ghost var w := Model();
      out, made := GetUsersAndMessage(addr, size, token, now);
      ghost var sender := Missing;
      if out.Forward? {
        RelayRegistered(w, addr, size, token, now, made);
        sender := Session.GetRoom(w.rows, addr, now).1;
      }
      to := Recipients(out, addr, size);
      failed := WriteTo(addr, to, fails, now, sender);
      FailedIdsAre(to, fails);
    }

    /** A client that joined this service with the message at place `k` of the history, and that never paused longer
        than the time to live before a sweep since then, is registered, with the room it joined. */
    lemma TalkingClientIsHere(k: nat, info: Info)
      requires Recorded() && k < |history| && history[k].Say? && history[k].token == Some(info)
      requires var e, w := history[k], Session.Run(EMPTY, history[..k], db.dataTTL);
               && Session.GetRoom(w.rows, e.addr, e.now).1.Missing?
               && Message(w, e.addr, e.size, e.token, e.now, e.made).1.Ack?
      requires KeepsTalking(history[k + 1..], history[k].addr, history[k].now, db.dataTTL)
      ensures var e, w := history[k], Session.Run(EMPTY, history[..k], db.dataTTL);
              var w1 := Message(w, e.addr, e.size, e.token, e.now, e.made).0;
              && KeyOf(info) in w1.rows && w1.rows[KeyOf(info)].value.RoomRef?
              && Registered(db.rows, e.addr, info, w1.rows[KeyOf(info)].value.room,
                            LastMessageOf(history[k + 1..], e.addr, e.now))
    {
      var e, w := history[k], Session.Run(EMPTY, history[..k], db.dataTTL);
      var w1 := Message(w, e.addr, e.size, e.token, e.now, e.made).0;
      assert Step(w, e, db.dataTTL) == w1;
      hide Message, Session.GetRoom, Registered, RoomKey, Step;
      JoinRegisters(w, e.addr, e.size, info, e.now, e.made);
      RunSplits(EMPTY, history, k, db.dataTTL);
      TalkingClientsStay(w1, history[k + 1..], e.addr, info, w1.rows[KeyOf(info)].value.room, e.now, db.dataTTL);
    }

    lemma KnownRooms()
      ensures UserTable().Keys == rooms
    {
    }

    /** The rooms in the store of this service: one key each, its own, and one room for a game and room. */
    lemma OneKey(k: string, k': string)
      requires Recorded() && k in db.rows && k' in db.rows
      requires db.rows[k].value.RoomRef? && db.rows[k'].value.RoomRef?
      ensures var r, r' := db.rows[k].value.room, db.rows[k'].value.room;
              && k == RoomKey(r.game, r.room) && (k == k' <==> r == r')
              && (r == r' <==> r.game == r'.game && r.room == r'.room)
    {
      hide After, RoomKey;
      OneKeyPerRoom(history, Model(), db.dataTTL, k, k');
    }

    /** Whoever this service relays a message to has joined with the sender's game and room. */
    lemma RelayedToJoined(addr: Addr, size: nat, token: Option<Info>, now: int, made: Option<Room>, to: set<User>)
      requires Recorded() && Message(Model(), addr, size, token, now, made).1 == Relay(to)
      ensures addr.text in db.rows && db.rows[addr.text].value.Client?
      ensures var info := db.rows[addr.text].value.info;
              forall u :: u in to ==> Session.Join(info.game, info.room, u.id, u.conn) in joined
    {
      hide After, RoomKey, Message;
      RelayGoesToTheRoom(history, Model(), db.dataTTL, addr, size, token, now, made);
    }

    /** The rooms that the store refers to are known, and known rooms are in the table. */
    lemma StoredRooms(k: string)
      requires Valid()
      ensures k in db.rows && db.rows[k].value.RoomRef? ==> db.rows[k].value.room in rooms
      ensures UserTable().Keys == rooms
    {
      if k in db.rows {
        assert RowOk(Model(), k);
      }
    }
  }
}
