/** Sessions: which clients and rooms the store holds, and who receives a relayed message. Every handler
    call is one atomic step with one clock reading. A room is identified by the object itself. */
module Session {
  import opened Wrappers
  import opened Store
  import opened Keys
  import opened Rooms

  /** What a token says about its bearer. */
  datatype Info = Info(game: Uuid, room: Uuid, user: Uuid)

  function KeyOf(info: Info): string {
    RoomKey(info.game, info.room)
  }

  datatype Value = Client(info: Info) | RoomRef(room: Room)

  type Rows = map<string, Row<Value>>

  /** A user who joined, with the game and room of the token. */
  datatype Join = Join(game: Uuid, room: Uuid, user: Uuid, conn: Addr)

  datatype World = World(
    rows: Rows,
    users: map<Room, map<Uuid, Addr>>,  // the users of every room ever made
    joined: set<Join>)                  // every join so far

  // ---- the handlers ----

  datatype Found = Missing | Found(info: Info, room: Room)

  /** getRoom: both lookups count as a use of the row, even when the second one fails. */
  function GetRoom(rows: Rows, addr: Addr, now: int): (Rows, Found) {
    if addr.text !in rows then (rows, Missing)
    else
      var rows1 := Touch(rows, addr.text, now);
      match rows[addr.text].value
      case RoomRef(_) => (rows1, Missing)
      case Client(info) =>
        if KeyOf(info) !in rows1 then (rows1, Missing)
        else
          match rows1[KeyOf(info)].value
          case Client(_) => (Touch(rows1, KeyOf(info), now), Missing)
          case RoomRef(room) => (Touch(rows1, KeyOf(info), now), Found(info, room))
  }

  function UsersOf(w: World, room: Room): map<Uuid, Addr> {
    if room in w.users then w.users[room] else map[]
  }

  /** room.SetUser for a client with the given token. */
  function Enter(w: World, room: Room, info: Info, addr: Addr): World {
    w.(users := w.users[room := UsersOf(w, room)[info.user := addr]],
       joined := w.joined + {Join(info.game, info.room, info.user, addr)})
  }

  /** Stores the client and looks up its room. */
  function Register(rows: Rows, addr: Addr, info: Info, now: int): (Rows, Option<Value>) {
    var rows1 := rows[addr.text := Row(Client(info), now)];
    (Touch(rows1, KeyOf(info), now), if KeyOf(info) in rows1 then Some(rows1[KeyOf(info)].value) else None)
  }

  /** The first half of setNewUser: registers the client and finds its room, or makes it; `made` is the
      object allocated in that case. */
  function FindOrMake(w: World, addr: Addr, info: Info, now: int, made: Option<Room>): (World, Option<Room>) {
    var (rows1, value) := Register(w.rows, addr, info, now);
    if value.Some? then (w.(rows := rows1), if value.value.RoomRef? then Some(value.value.room) else None)
    else if made.None? then (w.(rows := rows1), None)
    else
      (w.(rows := rows1[KeyOf(info) := Row(RoomRef(made.value), now)], users := w.users[made.value := map[]]), made)
  }

  function SetNewUser(w: World, addr: Addr, info: Info, now: int, made: Option<Room>): (World, bool) {
    var (w1, room) := FindOrMake(w, addr, info, now, made);
    if room.None? then (w1, false) else (Enter(w1, room.value, info, addr), true)
  }

  datatype Reply = Failed | Ack(user: Uuid) | Relay(to: set<User>)

  /** The users of a room except the sender's own entry. */
  ghost function Others(users: map<Uuid, Addr>, me: Uuid, addr: Addr): set<User> {
    set id | id in users && !(id == me && users[id] == addr) :: User(id, users[id])
  }

  lemma OthersMembers(users: map<Uuid, Addr>, me: Uuid, addr: Addr)
    ensures forall u :: u in Others(users, me, addr) <==>
              u.id in users && users[u.id] == u.conn && !(u.id == me && u.conn == addr)
  {
    forall u: User
      ensures u in Others(users, me, addr) <==>
              u.id in users && users[u.id] == u.conn && !(u.id == me && u.conn == addr)
    {
      assert u == User(u.id, u.conn);
    }
  }

  /** Messages of these sizes are taken for a repeated token. */
  predicate TokenSized(size: nat) {
    size == 454 || size == 343
  }

  /** GetUsersAndMessage, for a message of `size` bytes that parses, as a token, to `token`. */
  ghost function Message(w: World, addr: Addr, size: nat, token: Option<Info>, now: int, made: Option<Room>)
    : (World, Reply)
  {
    var (rows1, found) := GetRoom(w.rows, addr, now);
    var w1 := w.(rows := rows1);
    match found
    case Missing =>
      if token.None? then (w1, Failed)
      else
        var (w2, ok) := SetNewUser(w1, addr, token.value, now, made);
        (w2, if ok then Ack(token.value.user) else Failed)
    case Found(info, room) =>
      (w1, if TokenSized(size) then Ack(info.user) else Relay(Others(UsersOf(w, room), info.user, addr)))
  }

  function CreateRoom(w: World, token: Option<Info>, ttl: int, now: int, made: Option<Room>): World {
    if token.None? then w
    else
      var k := KeyOf(token.value);
      if k in w.rows then w.(rows := Touch(w.rows, k, now))
      else if made.None? then w
      else w.(rows := w.rows[k := Row(RoomRef(made.value), now + ttl)], users := w.users[made.value := map[]])
  }

  /** RemoveUser, called for a recipient whose write failed while serving `addr`. */
  function RemoveUser(w: World, addr: Addr, user: Uuid, now: int): World {
    var (rows1, found) := GetRoom(w.rows, addr, now);
    var w1 := w.(rows := rows1);
    match found
    case Missing => w1
    case Found(_, room) => w1.(users := w.users[room := UsersOf(w, room) - {user}])
  }

  datatype Event =
    | Say(addr: Addr, size: nat, token: Option<Info>, now: int, made: Option<Room>)
    | Make(token: Option<Info>, ttl: int, now: int, made: Option<Room>)
    | Drop(addr: Addr, user: Uuid, now: int)
    | Ask(game: Uuid, room: Uuid, now: int)  // one lookup of GetDeletedRooms
    | Expire(now: int)                       // a sweep

  ghost function Step(w: World, e: Event, dataTTL: int): World {
    match e
    case Say(addr, size, token, now, made) => Message(w, addr, size, token, now, made).0
    case Make(token, ttl, now, made) => CreateRoom(w, token, ttl, now, made)
    case Drop(addr, user, now) => RemoveUser(w, addr, user, now)
    case Ask(game, room, now) => w.(rows := Touch(w.rows, RoomKey(game, room), now))
    case Expire(now) => w.(rows := Swept(w.rows, dataTTL, now))
  }

  /** A new room object is new, and made with the game and room of the token. */
  ghost predicate Allocates(w: World, token: Option<Info>, made: Option<Room>) {
    made.Some? && token.Some? ==>
      made.value !in w.users && made.value.game == token.value.game && made.value.room == token.value.room
  }

  /** A room is made exactly where none is stored: by a token that is not of a registered client, or by a create. */
  ghost predicate MakesRoom(w: World, e: Event) {
    && (e.Say? || e.Make?) && e.token.Some? && KeyOf(e.token.value) !in w.rows
    && (e.Say? ==> GetRoom(w.rows, e.addr, e.now).1.Missing?)
  }

  ghost predicate Enabled(w: World, e: Event) {
    (e.Say? || e.Make? ==> Allocates(w, e.token, e.made)) && (MakesRoom(w, e) ==> e.made.Some?)
  }

  ghost function Run(w: World, es: seq<Event>, dataTTL: int): World
    decreases |es|
  {
    if es == [] then w else Run(Step(w, es[0], dataTTL), es[1..], dataTTL)
  }

  ghost predicate ValidRun(w: World, es: seq<Event>, dataTTL: int)
    decreases |es|
  {
    es == [] || (Enabled(w, es[0]) && ValidRun(Step(w, es[0], dataTTL), es[1..], dataTTL))
  }

  // ---- the invariant ----

  ghost predicate RowOk(w: World, k: string)
    requires k in w.rows
  {
    match w.rows[k].value
    case Client(_) => k == "" || k[0] != 'g'
    case RoomRef(room) => room in w.users && k == RoomKey(room.game, room.room)
  }

  ghost predicate MembersJoined(w: World) {
    forall room, id :: room in w.users && id in w.users[room] ==>
      Join(room.game, room.room, id, w.users[room][id]) in w.joined
  }

  ghost predicate Inv(w: World) {
    (forall k :: k in w.rows ==> RowOk(w, k)) && MembersJoined(w)
  }

  /** Registering finds the room exactly if its key was stored. */
  lemma RegisterFinds(rows: Rows, addr: Addr, info: Info, now: int)
    ensures Register(rows, addr, info, now).1.Some? <==> KeyOf(info) in rows
  {
    AddrIsNoRoomKey(addr, info.game, info.room);
    hide RoomKey;
  }

  lemma GetRoomKeepsKeys(rows: Rows, addr: Addr, now: int)
    ensures GetRoom(rows, addr, now).0.Keys == rows.Keys
  {
    hide RoomKey;
  }

  lemma GetRoomKeepsInv(w: World, addr: Addr, now: int)
    requires Inv(w)
    ensures Inv(w.(rows := GetRoom(w.rows, addr, now).0))
    ensures var found := GetRoom(w.rows, addr, now).1;
            found.Found? ==>
              && found.room in w.users
              && found.room.game == found.info.game && found.room.room == found.info.room
  {
    hide RoomKey;
    var w1 := w.(rows := GetRoom(w.rows, addr, now).0);
    assert forall k :: k in w1.rows ==> k in w.rows && w1.rows[k].value == w.rows[k].value && RowOk(w, k);
    var found := GetRoom(w.rows, addr, now).1;
    if found.Found? {
      assert RowOk(w, KeyOf(found.info));
      RoomKeyInjective(found.info.game, found.info.room, found.room.game, found.room.room);
    }
  }

  lemma EnterKeepsInv(w: World, room: Room, info: Info, addr: Addr)
    requires Inv(w) && room.game == info.game && room.room == info.room
    ensures Inv(Enter(w, room, info, addr))
  {
    var w1 := Enter(w, room, info, addr);
    forall k | k in w1.rows
      ensures RowOk(w1, k)
    {
      assert RowOk(w, k);
    }
  }

  lemma PutKeepsInv(w: World, k: string, row: Row<Value>, users: map<Room, map<Uuid, Addr>>)
    requires Inv(w) && w.users.Keys <= users.Keys
    requires forall room :: room in users ==> users[room] == UsersOf(w, room)
    requires RowOk(w.(rows := w.rows[k := row], users := users), k)
    ensures Inv(w.(rows := w.rows[k := row], users := users))
  {
    var w1 := w.(rows := w.rows[k := row], users := users);
    forall j | j in w1.rows
      ensures RowOk(w1, j)
    {
      if j != k {
        assert RowOk(w, j);
      }
    }
    forall room, id | room in w1.users && id in w1.users[room]
      ensures Join(room.game, room.room, id, w1.users[room][id]) in w1.joined
    {
      assert room in w.users;
    }
  }

  lemma TouchKeepsInv(w: World, k: string, now: int)
    requires Inv(w)
    ensures Inv(w.(rows := Touch(w.rows, k, now)))
  {
    var w1 := w.(rows := Touch(w.rows, k, now));
    assert forall j :: j in w1.rows ==> w1.rows[j].value == w.rows[j].value && RowOk(w, j);
  }

  /** Storing a client under its address. */
  lemma ClientKeepsInv(w: World, addr: Addr, info: Info, now: int)
    requires Inv(w)
    ensures Inv(w.(rows := w.rows[addr.text := Row(Client(info), now)]))
  {
    AddrStart(addr);
    PutKeepsInv(w, addr.text, Row(Client(info), now), w.users);
    assert w.(rows := w.rows[addr.text := Row(Client(info), now)])
           == w.(rows := w.rows[addr.text := Row(Client(info), now)], users := w.users);
  }

  /** Joining a room that is stored. */
  lemma JoinKeepsInv(w: World, addr: Addr, info: Info, now: int, room: Room)
    requires Inv(w) && KeyOf(info) in w.rows && w.rows[KeyOf(info)].value == RoomRef(room)
    ensures Inv(Enter(w.(rows := Touch(w.rows, KeyOf(info), now)), room, info, addr))
  {
    assert RowOk(w, KeyOf(info));
    hide RoomKey, Inv;
    RoomKeyInjective(info.game, info.room, room.game, room.room);
    TouchKeepsInv(w, KeyOf(info), now);
    EnterKeepsInv(w.(rows := Touch(w.rows, KeyOf(info), now)), room, info, addr);
  }

  lemma SetNewUserKeepsInv(w: World, addr: Addr, info: Info, now: int, made: Option<Room>)
    requires Inv(w) && Allocates(w, Some(info), made)
    ensures Inv(SetNewUser(w, addr, info, now, made).0)
  {
    var k := KeyOf(info);
    hide RoomKey, Inv, RowOk, Enter;
    var w1 := w.(rows := w.rows[addr.text := Row(Client(info), now)]);
    ClientKeepsInv(w, addr, info, now);
    if k in w1.rows {
      if w1.rows[k].value.RoomRef? {
        JoinKeepsInv(w1, addr, info, now, w1.rows[k].value.room);
      } else {
        TouchKeepsInv(w1, k, now);
      }
    } else if made.Some? {
      MadeKeepsInv(w1, addr, info, now, made.value);
    }
  }

  /** Storing a new room and joining it. */
  lemma MadeKeepsInv(w: World, addr: Addr, info: Info, now: int, room: Room)
    requires Inv(w) && Allocates(w, Some(info), Some(room))
    ensures Inv(Enter(w.(rows := w.rows[KeyOf(info) := Row(RoomRef(room), now)], users := w.users[room := map[]]),
                      room, info, addr))
  {
    hide RoomKey, Enter;
    var users := w.users[room := map[]];
    PutKeepsInv(w, KeyOf(info), Row(RoomRef(room), now), users);
    hide Inv;
    EnterKeepsInv(w.(rows := w.rows[KeyOf(info) := Row(RoomRef(room), now)], users := users), room, info, addr);
  }

  lemma StepKeepsInv(w: World, e: Event, dataTTL: int)
    requires Inv(w) && Enabled(w, e)
    ensures Inv(Step(w, e, dataTTL))
  {
    var w1 := Step(w, e, dataTTL);
    match e
    case Say(addr, size, token, now, made) =>
      GetRoomKeepsInv(w, addr, now);
      if token.Some? {
        SetNewUserKeepsInv(w.(rows := GetRoom(w.rows, addr, now).0), addr, token.value, now, made);
      }
    case Make(token, ttl, now, made) => CreateKeepsInv(w, token, ttl, now, made);
    case Drop(addr, user, now) => DropKeepsInv(w, addr, user, now);
    case Ask(game, room, now) =>
      assert forall k :: k in w1.rows ==> w1.rows[k].value == w.rows[k].value && RowOk(w, k);
    case Expire(now) =>
      assert forall k :: k in w1.rows ==> w1.rows[k].value == w.rows[k].value && RowOk(w, k);
  }

  lemma CreateKeepsInv(w: World, token: Option<Info>, ttl: int, now: int, made: Option<Room>)
    requires Inv(w) && Allocates(w, token, made)
    ensures Inv(CreateRoom(w, token, ttl, now, made))
  {
    var w1 := CreateRoom(w, token, ttl, now, made);
    if token.Some? && made.Some? && KeyOf(token.value) !in w.rows {
      PutKeepsInv(w, KeyOf(token.value), Row(RoomRef(made.value), now + ttl), w.users[made.value := map[]]);
    } else {
      assert forall k :: k in w1.rows ==> w1.rows[k].value == w.rows[k].value && RowOk(w, k);
    }
  }

  lemma DropKeepsInv(w: World, addr: Addr, user: Uuid, now: int)
    requires Inv(w)
    ensures Inv(RemoveUser(w, addr, user, now))
  {
    GetRoomKeepsInv(w, addr, now);
    var w1 := w.(rows := GetRoom(w.rows, addr, now).0);
    var w2 := RemoveUser(w, addr, user, now);
    assert forall k :: k in w2.rows ==> k in w1.rows && w2.rows[k] == w1.rows[k] && RowOk(w1, k);
  }

  lemma {:induction false} RunKeepsInv(w: World, es: seq<Event>, dataTTL: int)
    requires Inv(w) && ValidRun(w, es, dataTTL)
    ensures Inv(Run(w, es, dataTTL))
    decreases |es|
  {
    hide Inv, Step;
    if es != [] {
      StepKeepsInv(w, es[0], dataTTL);
      RunKeepsInv(Step(w, es[0], dataTTL), es[1..], dataTTL);
    }
  }

  const EMPTY := World(map[], map[], {})

  /** `w` is where the run `es` of a fresh server leads. */
  ghost predicate After(es: seq<Event>, w: World, dataTTL: int) {
    ValidRun(EMPTY, es, dataTTL) && w == Run(EMPTY, es, dataTTL)
  }

  lemma {:induction false} RunOneMore(w: World, es: seq<Event>, e: Event, dataTTL: int)
    requires ValidRun(w, es, dataTTL) && Enabled(Run(w, es, dataTTL), e)
    ensures ValidRun(w, es + [e], dataTTL)
    ensures Run(w, es + [e], dataTTL) == Step(Run(w, es, dataTTL), e, dataTTL)
    decreases |es|
  {
    hide Step, Enabled;
    if es == [] {
      assert es + [e] == [e] && [e][1..] == [];
    } else {
      assert (es + [e])[1..] == es[1..] + [e];
      RunOneMore(Step(w, es[0], dataTTL), es[1..], e, dataTTL);
    }
  }

  /** A run is the run up to one of its events, that event, and the run after it. */
  lemma {:induction false} RunSplits(w: World, es: seq<Event>, k: nat, dataTTL: int)
    requires k < |es|
    ensures Run(w, es, dataTTL) == Run(Step(Run(w, es[..k], dataTTL), es[k], dataTTL), es[k + 1..], dataTTL)
    decreases |es|
  {
    hide Step;
    if k > 0 {
      RunSplits(Step(w, es[0], dataTTL), es[1..], k - 1, dataTTL);
      assert es[..k][1..] == es[1..][..k - 1] && es[1..][k..] == es[k + 1..];
    }
  }

  // ---- what follows ----

  /** After every run a stored room sits under exactly one key, its own, and a game and room have
      at most one stored room. */
  lemma OneKeyPerRoom(es: seq<Event>, w: World, dataTTL: int, k: string, k': string)
    requires After(es, w, dataTTL)
    requires k in w.rows && k' in w.rows && w.rows[k].value.RoomRef? && w.rows[k'].value.RoomRef?
    ensures var r, r' := w.rows[k].value.room, w.rows[k'].value.room;
            && k == RoomKey(r.game, r.room)
            && (k == k' <==> r == r')
            && (r == r' <==> r.game == r'.game && r.room == r'.room)
  {
    RunKeepsInv(EMPTY, es, dataTTL);
    assert RowOk(w, k) && RowOk(w, k');
    var r, r' := w.rows[k].value.room, w.rows[k'].value.room;
    if k == k' {
      RoomKeyInjective(r.game, r.room, r'.game, r'.room);
    }
  }

  /** Both lookups count as a use of the row, also when the second finds nothing; no other row changes, and none
      comes or goes. */
  lemma LookupsUseRows(rows: Rows, addr: Addr, now: int)
    ensures var rows1 := GetRoom(rows, addr, now).0;
            && rows1.Keys == rows.Keys
            && (forall k :: k in rows ==>
                  rows1[k] == if k == addr.text ||
                                 (addr.text in rows && rows[addr.text].value.Client? &&
                                  k == KeyOf(rows[addr.text].value.info))
                              then Row(rows[k].value, now) else rows[k])
  {
    hide RoomKey;
  }

  /** A message of a registered client is taken for a repeated token exactly if it has 454 or 343 bytes; any other is
      relayed to exactly the users of the room but the sender's own entry. */
  lemma RegisteredIsServed(w: World, addr: Addr, info: Info, room: Room, last: int,
                           size: nat, token: Option<Info>, now: int, made: Option<Room>)
    requires Registered(w.rows, addr, info, room, last) && room in w.users
    ensures var reply := Message(w, addr, size, token, now, made).1;
            && (size == 454 || size == 343 ==> reply == Ack(info.user))
            && (size != 454 && size != 343 ==>
                  && reply.Relay?
                  && forall u :: u in reply.to <==>
                       && u.id in w.users[room] && w.users[room][u.id] == u.conn
                       && !(u.id == info.user && u.conn == addr))
  {
    AddrIsNoRoomKey(addr, info.game, info.room);
    OthersMembers(w.users[room], info.user, addr);
    hide RoomKey, Others;
  }

  /** After every run a message is relayed exactly if its sender is a client whose room is stored and it does not have
      the size of a token; it then goes to exactly the current users of the sender's room other than the sender's own
      entry, and all of them joined with the sender's game and room. */
  lemma RelayGoesToTheRoom(es: seq<Event>, w: World, dataTTL: int,
                           addr: Addr, size: nat, token: Option<Info>, now: int, made: Option<Room>)
    requires After(es, w, dataTTL)
    ensures var reply := Message(w, addr, size, token, now, made).1;
            && (reply.Relay? <==>
                  && addr.text in w.rows && w.rows[addr.text].value.Client?
                  && KeyOf(w.rows[addr.text].value.info) in w.rows
                  && size != 454 && size != 343)
            && (reply.Relay? ==>
                  var info := w.rows[addr.text].value.info;
                  && w.rows[KeyOf(info)].value.RoomRef?
                  && var room := w.rows[KeyOf(info)].value.room;
                  && room in w.users && room.game == info.game && room.room == info.room
                  && (forall u :: u in reply.to <==>
                        && u.id in w.users[room] && w.users[room][u.id] == u.conn
                        && !(u.id == info.user && u.conn == addr))
                  && (forall u :: u in reply.to ==> Join(info.game, info.room, u.id, u.conn) in w.joined))
  {
    RunKeepsInv(EMPTY, es, dataTTL);
    GetRoomKeepsInv(w, addr, now);
    FoundIff(w, addr, now);
    hide RoomKey, Others, Inv, GetRoom, After;
    var found := GetRoom(w.rows, addr, now).1;
    if found.Found? {
      OthersMembers(UsersOf(w, found.room), found.info.user, addr);
      RelayJoined(w, found.info, found.room, addr);
    }
  }

  /** The lookups find exactly the room of a client whose room is stored. */
  lemma FoundIff(w: World, addr: Addr, now: int)
    requires Inv(w)
    ensures var found := GetRoom(w.rows, addr, now).1;
            && (found.Found? <==>
                  && addr.text in w.rows && w.rows[addr.text].value.Client?
                  && KeyOf(w.rows[addr.text].value.info) in w.rows)
            && (found.Found? ==>
                  && found.info == w.rows[addr.text].value.info
                  && w.rows[KeyOf(found.info)].value == RoomRef(found.room))
  {
    if addr.text in w.rows && w.rows[addr.text].value.Client? {
      var info := w.rows[addr.text].value.info;
      AddrIsNoRoomKey(addr, info.game, info.room);
      if KeyOf(info) in w.rows {
        RoomUnderItsKey(w, info);
      }
    }
    hide RoomKey, Inv;
  }

  /** What is stored under a room key is a room. */
  lemma RoomUnderItsKey(w: World, info: Info)
    requires Inv(w) && KeyOf(info) in w.rows
    ensures w.rows[KeyOf(info)].value.RoomRef?
  {
    assert RowOk(w, KeyOf(info));
    assert KeyOf(info)[0] == 'g';
  }

  lemma RelayJoined(w: World, info: Info, room: Room, addr: Addr)
    requires Inv(w) && room in w.users && room.game == info.game && room.room == info.room
    ensures forall u :: u in Others(w.users[room], info.user, addr) ==>
              Join(info.game, info.room, u.id, u.conn) in w.joined
  {
    OthersMembers(w.users[room], info.user, addr);
  }

  // ---- clients that keep talking ----

  /** The client is registered, its room stored, and both rows used no earlier than `last`. */
  ghost predicate Registered(rows: Rows, addr: Addr, info: Info, room: Room, last: int) {
    && addr.text in rows && rows[addr.text].value == Client(info) && rows[addr.text].usedAt >= last
    && KeyOf(info) in rows && rows[KeyOf(info)].value == RoomRef(room) && rows[KeyOf(info)].usedAt >= last
  }

  /** The time of the client's last message, after one more event. */
  function LastMessage(e: Event, addr: Addr, last: int): int {
    if e.Say? && e.addr == addr then e.now else last
  }

  /** The clock is never behind the client's last message, and no sweep comes more than dataTTL seconds
      after it. */
  predicate KeepsTalking(es: seq<Event>, addr: Addr, last: int, dataTTL: int) {
    es == [] ||
    (&& last <= es[0].now
     && (es[0].Expire? ==> es[0].now <= last + SECOND * dataTTL)
     && KeepsTalking(es[1..], addr, LastMessage(es[0], addr, last), dataTTL))
  }

  /** The replies the client gets in a run. */
  ghost function RepliesTo(w: World, es: seq<Event>, addr: Addr, dataTTL: int): seq<Reply>
    decreases |es|
  {
    if es == [] then []
    else
      (if es[0].Say? && es[0].addr == addr
       then [Message(w, addr, es[0].size, es[0].token, es[0].now, es[0].made).1] else [])
      + RepliesTo(Step(w, es[0], dataTTL), es[1..], addr, dataTTL)
  }

  /** Using any row keeps a client registered. */
  lemma TouchRegistered(rows: Rows, k: string, now: int, addr: Addr, info: Info, room: Room, last: int)
    requires Registered(rows, addr, info, room, last) && last <= now
    ensures Registered(Touch(rows, k, now), addr, info, room, last)
  {
    hide RoomKey;
  }

  /** The lookups of anyone keep a client registered. */
  lemma OtherGetRoomRegistered(rows: Rows, a: Addr, now: int, addr: Addr, info: Info, room: Room, last: int)
    requires Registered(rows, addr, info, room, last) && last <= now
    ensures Registered(GetRoom(rows, a, now).0, addr, info, room, last)
  {
    hide RoomKey, Registered, Touch;
    var rows1 := Touch(rows, a.text, now);
    TouchRegistered(rows, a.text, now, addr, info, room, last);
    if a.text in rows && rows[a.text].value.Client? {
      TouchRegistered(rows1, KeyOf(rows[a.text].value.info), now, addr, info, room, last);
    }
  }

  lemma GetRoomRegistered(rows: Rows, a: Addr, now: int, addr: Addr, info: Info, room: Room, last: int)
    requires Registered(rows, addr, info, room, last) && last <= now
    ensures var (rows1, found) := GetRoom(rows, a, now);
            && Registered(rows1, addr, info, room, if a == addr then now else last)
            && (a == addr ==> found == Found(info, room))
  {
    hide RoomKey;
    if a == addr {
      AddrIsNoRoomKey(addr, info.game, info.room);
    } else {
      OtherGetRoomRegistered(rows, a, now, addr, info, room, last);
    }
  }

  lemma NewUserRegistered(w: World, a: Addr, token: Info, now: int, made: Option<Room>,
                          addr: Addr, info: Info, room: Room, last: int)
    requires Registered(w.rows, addr, info, room, last) && last <= now && a != addr
    ensures Registered(SetNewUser(w, a, token, now, made).0.rows, addr, info, room, last)
  {
    AddrIsNoRoomKey(a, info.game, info.room);
    AddrIsNoRoomKey(addr, token.game, token.room);
    hide RoomKey;
  }

  lemma {:induction false} SayKeepsRegistered(w: World, e: Event, addr: Addr, info: Info, room: Room, last: int)
    requires Registered(w.rows, addr, info, room, last) && e.Say? && last <= e.now
    ensures Registered(Message(w, e.addr, e.size, e.token, e.now, e.made).0.rows, addr, info, room,
                       LastMessage(e, addr, last))
    ensures e.addr == addr ==> !Message(w, e.addr, e.size, e.token, e.now, e.made).1.Failed?
  {
    hide Registered, GetRoom, SetNewUser;
    GetRoomRegistered(w.rows, e.addr, e.now, addr, info, room, last);
    if e.token.Some? && e.addr != addr {
      var w1 := w.(rows := GetRoom(w.rows, e.addr, e.now).0);
      NewUserRegistered(w1, e.addr, e.token.value, e.now, e.made, addr, info, room, last);
    }
  }

  lemma {:induction false} StepKeepsRegistered(w: World, e: Event, addr: Addr, info: Info, room: Room,
                                               last: int, dataTTL: int)
    requires Registered(w.rows, addr, info, room, last) && last <= e.now
    requires e.Expire? ==> e.now <= last + SECOND * dataTTL
    ensures Registered(Step(w, e, dataTTL).rows, addr, info, room, LastMessage(e, addr, last))
  {
    hide RoomKey;
    match e
    case Say(_, _, _, _, _) => SayKeepsRegistered(w, e, addr, info, room, last);
    case Make(token, _, _, _) =>
      if token.Some? {
        AddrIsNoRoomKey(addr, token.value.game, token.value.room);
      }
    case Drop(a, _, now) =>
      hide GetRoom;
      GetRoomRegistered(w.rows, a, now, addr, info, room, last);
    case Ask(_, _, _) =>
    case Expire(_) =>
  }

  /** The time of the client's last message in a run. */
  function LastMessageOf(es: seq<Event>, addr: Addr, last: int): int {
    if es == [] then last else LastMessageOf(es[1..], addr, LastMessage(es[0], addr, last))
  }

  /** A registered client that keeps talking is never evicted, its room object is neither evicted nor
      replaced, and every message it sends is served, whatever anyone else does. */
  lemma {:induction false} TalkingClientsStay(w: World, es: seq<Event>, addr: Addr, info: Info, room: Room,
                                              last: int, dataTTL: int)
    requires Registered(w.rows, addr, info, room, last) && KeepsTalking(es, addr, last, dataTTL)
    ensures Registered(Run(w, es, dataTTL).rows, addr, info, room, LastMessageOf(es, addr, last))
    ensures forall r :: r in RepliesTo(w, es, addr, dataTTL) ==> !r.Failed?
    decreases |es|
  {
    if es != [] {
      hide Registered, Step, Message;
      var e := es[0];
      StepKeepsRegistered(w, e, addr, info, room, last, dataTTL);
      if e.Say? {
        SayKeepsRegistered(w, e, addr, info, room, last);
      }
      TalkingClientsStay(Step(w, e, dataTTL), es[1..], addr, info, room, LastMessage(e, addr, last), dataTTL);
    }
  }

  /** A successful join registers the client with the room of its token and makes it a user there. */
  lemma JoinRegisters(w: World, addr: Addr, size: nat, info: Info, now: int, made: Option<Room>)
    requires GetRoom(w.rows, addr, now).1.Missing?
    requires Message(w, addr, size, Some(info), now, made).1.Ack?
    ensures var w1 := Message(w, addr, size, Some(info), now, made).0;
            && KeyOf(info) in w1.rows && w1.rows[KeyOf(info)].value.RoomRef?
            && var room := w1.rows[KeyOf(info)].value.room;
            && Registered(w1.rows, addr, info, room, now)
            && room in w1.users && info.user in w1.users[room] && w1.users[room][info.user] == addr
  {
    AddrIsNoRoomKey(addr, info.game, info.room);
    hide RoomKey, GetRoom;
  }

  /** A valid token of a client that is not registered is always acknowledged: the client is a user of the stored
      room, or of a new one, and no other room or user changes. Without a valid token the message fails. */
  lemma ValidTokenJoins(w: World, addr: Addr, size: nat, token: Option<Info>, now: int, made: Option<Room>)
    requires Inv(w) && GetRoom(w.rows, addr, now).1.Missing? && Enabled(w, Say(addr, size, token, now, made))
    ensures var (w1, reply) := Message(w, addr, size, token, now, made);
            if token.None? then reply == Failed && w1.users == w.users && w1.rows.Keys == w.rows.Keys
            else
              var info := token.value;
              var stored := KeyOf(info) in w.rows;
              && reply == Ack(info.user)
              && (stored ==> w.rows[KeyOf(info)].value.RoomRef?) && (!stored ==> made.Some?)
              && var room := if stored then w.rows[KeyOf(info)].value.room else made.value;
              && w1.rows.Keys == w.rows.Keys + {addr.text, KeyOf(info)}
              && w1.rows[KeyOf(info)] == Row(RoomRef(room), now) && w1.rows[addr.text] == Row(Client(info), now)
              && w1.users == w.users[room := (if stored then UsersOf(w, room) else map[])[info.user := addr]]
              && w1.joined == w.joined + {Join(info.game, info.room, info.user, addr)}
  {
    LookupsUseRows(w.rows, addr, now);
    hide RoomKey, GetRoom;
    if token.Some? {
      var w1 := w.(rows := GetRoom(w.rows, addr, now).0);
      GetRoomKeepsInv(w, addr, now);
      hide Inv, SetNewUser;
      JoinIsExact(w1, addr, token.value, now, made);
    }
  }

  /** What a join does: it stores client and room, and seats the user. */
  lemma JoinIsExact(w: World, addr: Addr, info: Info, now: int, made: Option<Room>)
    requires Inv(w) && (KeyOf(info) !in w.rows ==> made.Some?)
    ensures var (w1, ok) := SetNewUser(w, addr, info, now, made);
            var stored := KeyOf(info) in w.rows;
            && ok && (stored ==> w.rows[KeyOf(info)].value.RoomRef?)
            && var room := if stored then w.rows[KeyOf(info)].value.room else made.value;
            && w1.rows == w.rows[addr.text := Row(Client(info), now)][KeyOf(info) := Row(RoomRef(room), now)]
            && w1.users == w.users[room := (if stored then UsersOf(w, room) else map[])[info.user := addr]]
            && w1.joined == w.joined + {Join(info.game, info.room, info.user, addr)}
  {
    AddrIsNoRoomKey(addr, info.game, info.room);
    if KeyOf(info) in w.rows {
      RoomUnderItsKey(w, info);
    }
    hide RoomKey, Inv;
  }

  /** A create under a missing key stores an empty room whose time lies the given time to live ahead; a sweep that
      comes before anything uses the row deletes it exactly if it comes more than dataTTL seconds after that. Under a
      stored key, or without a valid token, no room is made. */
  lemma CreatedRoomLives(w: World, token: Option<Info>, ttl: int, now: int, made: Option<Room>,
                         dataTTL: int, later: int)
    requires Enabled(w, Make(token, ttl, now, made)) && now + ttl != 0
    ensures var w1 := CreateRoom(w, token, ttl, now, made);
            if token.Some? && KeyOf(token.value) !in w.rows then
              var k := KeyOf(token.value);
              && made.Some? && w1.rows == w.rows[k := Row(RoomRef(made.value), now + ttl)]
              && w1.users == w.users[made.value := map[]]
              && (k in Step(w1, Expire(later), dataTTL).rows <==> later <= now + ttl + 1_000_000_000 * dataTTL)
            else w1.users == w.users && w1.rows.Keys == w.rows.Keys
  {
    hide RoomKey;
  }

  // ---- clients that fall silent ----

  /** Events in which the client takes no part. */
  predicate SilentIn(es: seq<Event>, addr: Addr) {
    forall i :: 0 <= i < |es| ==> !((es[i].Say? || es[i].Drop?) && es[i].addr == addr)
  }

  /** The client's row is gone, or was last used at `last`. */
  ghost predicate GoneOrUnused(rows: Rows, addr: Addr, last: int) {
    addr.text in rows ==> rows[addr.text].usedAt == last
  }

  lemma SilentSay(w: World, a: Addr, size: nat, token: Option<Info>, now: int, made: Option<Room>, addr: Addr,
                  last: int)
    requires GoneOrUnused(w.rows, addr, last) && a != addr
    ensures GoneOrUnused(Message(w, a, size, token, now, made).0.rows, addr, last)
  {
    hide RoomKey, GetRoom, SetNewUser;
    OtherLookup(w.rows, a, now, addr);
    if token.Some? {
      OtherJoin(w.(rows := GetRoom(w.rows, a, now).0), a, token.value, now, made, addr);
    }
  }

  lemma SilentStep(w: World, e: Event, addr: Addr, last: int, dataTTL: int)
    requires GoneOrUnused(w.rows, addr, last) && SilentIn([e], addr)
    ensures GoneOrUnused(Step(w, e, dataTTL).rows, addr, last)
  {
    assert !((e.Say? || e.Drop?) && e.addr == addr) by {
      assert [e][0] == e;
    }
    match e
    case Say(a, size, token, now, made) => SilentSay(w, a, size, token, now, made, addr, last);
    case Make(token, _, _, _) =>
      if token.Some? {
        AddrIsNoRoomKey(addr, token.value.game, token.value.room);
      }
      hide RoomKey;
    case Drop(a, _, now) =>
      hide RoomKey, GetRoom;
      OtherLookup(w.rows, a, now, addr);
    case Ask(game, room, _) =>
      AddrIsNoRoomKey(addr, game, room);
      hide RoomKey;
    case Expire(_) =>
  }

  /** Nor does the join of another client. */
  lemma OtherJoin(w: World, a: Addr, info: Info, now: int, made: Option<Room>, addr: Addr)
    requires a != addr
    ensures var rows1 := SetNewUser(w, a, info, now, made).0.rows;
            (addr.text in rows1 <==> addr.text in w.rows) &&
            (addr.text in w.rows ==> rows1[addr.text] == w.rows[addr.text])
  {
    AddrIsNoRoomKey(addr, info.game, info.room);
    hide RoomKey;
  }

  /** The lookups of another client do not use this client's row. */
  lemma OtherLookup(rows: Rows, a: Addr, now: int, addr: Addr)
    requires a != addr
    ensures var rows1 := GetRoom(rows, a, now).0;
            rows1.Keys == rows.Keys && (addr.text in rows ==> rows1[addr.text] == rows[addr.text])
  {
    LookupsUseRows(rows, a, now);
    if a.text in rows && rows[a.text].value.Client? {
      AddrIsNoRoomKey(addr, rows[a.text].value.info.game, rows[a.text].value.info.room);
    }
    hide RoomKey, GetRoom;
  }

  lemma {:induction false} SilentRun(w: World, es: seq<Event>, addr: Addr, last: int, dataTTL: int)
    requires GoneOrUnused(w.rows, addr, last) && SilentIn(es, addr)
    ensures GoneOrUnused(Run(w, es, dataTTL).rows, addr, last)
    decreases |es|
  {
    if es != [] {
      assert SilentIn([es[0]], addr) && SilentIn(es[1..], addr);
      hide GoneOrUnused, Step, SilentIn;
      SilentStep(w, es[0], addr, last, dataTTL);
      SilentRun(Step(w, es[0], dataTTL), es[1..], addr, last, dataTTL);
    }
  }

  /** A client that takes no part in a run is gone after a sweep that comes more than dataTTL seconds after its row
      was last used, whatever anyone else did. */
  lemma SilentClientLeaves(w: World, es: seq<Event>, addr: Addr, last: int, dataTTL: int, now: int)
    requires GoneOrUnused(w.rows, addr, last) && SilentIn(es, addr)
    requires last != 0 && last + 1_000_000_000 * dataTTL < now
    ensures addr.text !in Step(Run(w, es, dataTTL), Expire(now), dataTTL).rows
  {
    SilentRun(w, es, addr, last, dataTTL);
    hide Run, SilentIn;
  }

  // ---- failed writes ----

  /** RemoveUser for each recipient whose write failed, while serving one message of `addr`. */
  ghost function RemoveAll(w: World, addr: Addr, users: seq<Uuid>, now: int): World {
    if users == [] then w
    else RemoveUser(RemoveAll(w, addr, users[..|users| - 1], now), addr, users[|users| - 1], now)
  }

  lemma FailedWriteRemoved(w: World, addr: Addr, info: Info, room: Room, user: Uuid, now: int)
    requires Registered(w.rows, addr, info, room, now) && room in w.users
    ensures var w1 := RemoveUser(w, addr, user, now);
            && Registered(w1.rows, addr, info, room, now)
            && w1.users == w.users[room := w.users[room] - {user}] && w1.joined == w.joined
  {
    hide GetRoom, Registered;
    GetRoomRegistered(w.rows, addr, now, addr, info, room, now);
  }

  /** A removal takes the user out of the room of a client whose room is stored, and otherwise out of none. */
  lemma RemovalIsExact(w: World, addr: Addr, user: Uuid, now: int)
    requires Inv(w)
    ensures var w1 := RemoveUser(w, addr, user, now);
            && w1.joined == w.joined && w1.rows.Keys == w.rows.Keys
            && if && addr.text in w.rows && w.rows[addr.text].value.Client?
                  && KeyOf(w.rows[addr.text].value.info) in w.rows
               then
                 var held := w.rows[KeyOf(w.rows[addr.text].value.info)].value;
                 held.RoomRef? && w1.users == w.users[held.room := UsersOf(w, held.room) - {user}]
               else w1.users == w.users
  {
    FoundIff(w, addr, now);
    LookupsUseRows(w.rows, addr, now);
    hide Inv, GetRoom, RoomKey;
  }

  /** Serving a message removes exactly the users whose write failed, from the sender's room only. */
  lemma {:induction false} FailedWritesRemoved(w: World, addr: Addr, info: Info, room: Room, users: seq<Uuid>, now: int)
    requires Registered(w.rows, addr, info, room, now) && room in w.users
    ensures var w1 := RemoveAll(w, addr, users, now);
            && Registered(w1.rows, addr, info, room, now)
            && w1.users == w.users[room := w.users[room] - (set u | u in users)]
            && w1.joined == w.joined
  {
    hide RemoveUser, Registered;
    if users == [] {
      assert w.users[room] - (set u | u in users) == w.users[room];
    } else {
      var n := |users| - 1;
      FailedWritesRemoved(w, addr, info, room, users[..n], now);
      FailedWriteRemoved(RemoveAll(w, addr, users[..n], now), addr, info, room, users[n], now);
      assert users == users[..n] + [users[n]];
      var before := set u | u in users[..n];
      assert (set u | u in users) == before + {users[n]};
      assert w.users[room] - before - {users[n]} == w.users[room] - (before + {users[n]});
    }
  }

  /** A relay finds the sender's client and room, and leaves both rows freshly used. */
  lemma RelayRegistered(w: World, addr: Addr, size: nat, token: Option<Info>, now: int, made: Option<Room>)
    requires Inv(w) && Message(w, addr, size, token, now, made).1.Relay?
    ensures var found, w1 := GetRoom(w.rows, addr, now).1, Message(w, addr, size, token, now, made).0;
            && found.Found? && found.room in w.users && w1.users == w.users
            && Registered(w1.rows, addr, found.info, found.room, now)
  {
    GetRoomKeepsInv(w, addr, now);
    var found := GetRoom(w.rows, addr, now).1;
    AddrIsNoRoomKey(addr, found.info.game, found.info.room);
    hide RoomKey;
  }

  /** After a relay the sender's room is the old one minus the users whose write failed, and no other room
      has changed. */
  lemma RelayThenRemovals(w: World, addr: Addr, size: nat, token: Option<Info>, now: int, made: Option<Room>,
                          failed: seq<Uuid>)
    requires Inv(w) && Message(w, addr, size, token, now, made).1.Relay?
    ensures var found := GetRoom(w.rows, addr, now).1;
            && found.Found? && found.room in w.users
            && RemoveAll(Message(w, addr, size, token, now, made).0, addr, failed, now).users
               == w.users[found.room := w.users[found.room] - (set u | u in failed)]
  {
    hide RemoveAll, Registered;
    RelayRegistered(w, addr, size, token, now, made);
    var found, w1 := GetRoom(w.rows, addr, now).1, Message(w, addr, size, token, now, made).0;
    hide GetRoom, Message;
    FailedWritesRemoved(w1, addr, found.info, found.room, failed, now);
  }
}
