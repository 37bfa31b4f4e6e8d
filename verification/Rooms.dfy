/** Identifiers and the keys under which rooms are stored. */
module Keys {

  type Byte = n: nat | n < 256

  type Bytes16 = u: seq<Byte> | |u| == 16 witness seq(16, _ => 0)

  datatype Uuid = Uuid(bytes: Bytes16)

  const HEX_DIGITS: string := "0123456789abcdef"

  /** Lower-case hexadecimal, two digits a byte. */
  function Hex(bytes: seq<Byte>): (s: string)
    ensures |s| == 2 * |bytes|
  {
    if bytes == [] then ""
    else [HEX_DIGITS[bytes[0] / 16], HEX_DIGITS[bytes[0] % 16]] + Hex(bytes[1..])
  }

  lemma {:induction false} HexInjective(a: seq<Byte>, b: seq<Byte>)
    requires Hex(a) == Hex(b)
    ensures a == b
  {
    if a != [] {
      assert b != [];
      var x, y := Hex(a), Hex(b);
      assert x[0] == y[0] && x[1] == y[1];
      DigitInjective(a[0] / 16, b[0] / 16);
      DigitInjective(a[0] % 16, b[0] % 16);
      assert a[0] == 16 * (a[0] / 16) + a[0] % 16 && b[0] == 16 * (b[0] / 16) + b[0] % 16;
      assert x[2..] == Hex(a[1..]) && y[2..] == Hex(b[1..]);
      HexInjective(a[1..], b[1..]);
      assert a == [a[0]] + a[1..] && b == [b[0]] + b[1..];
    }
  }

  lemma DigitInjective(x: nat, y: nat)
    requires x < 16 && y < 16 && HEX_DIGITS[x] == HEX_DIGITS[y]
    ensures x == y
  {
  }

  /** The canonical 8-4-4-4-12 form of an identifier. */
  function Text(u: Uuid): (s: string)
    ensures |s| == 36
  {
    var h := Hex(u.bytes);
    h[..8] + "-" + h[8..12] + "-" + h[12..16] + "-" + h[16..20] + "-" + h[20..]
  }

  lemma {:induction false} HexDigits(bytes: seq<Byte>, i: nat)
    requires i < |bytes|
    ensures Hex(bytes)[2 * i] == "0123456789abcdef"[bytes[i] / 16]
    ensures Hex(bytes)[2 * i + 1] == "0123456789abcdef"[bytes[i] % 16]
  {
    if i > 0 {
      HexDigits(bytes[1..], i - 1);
    }
  }

  /** The digits of the bytes in order, with dashes at the four places. */
  lemma TextIs(u: Uuid)
    ensures var t := Text(u);
            && t[8] == '-' && t[13] == '-' && t[18] == '-' && t[23] == '-'
            && t[..8] + t[9..13] + t[14..18] + t[19..23] + t[24..] == Hex(u.bytes)
  {
    var h, t := Hex(u.bytes), Text(u);
    assert t[..8] == h[..8] && t[9..13] == h[8..12] && t[14..18] == h[12..16] && t[19..23] == h[16..20];
    assert t[24..] == h[20..];
  }

  lemma TextInjective(a: Uuid, b: Uuid)
    requires Text(a) == Text(b)
    ensures a == b
  {
    var x, y, s := Hex(a.bytes), Hex(b.bytes), Text(a);
    assert x[..8] == s[..8] == y[..8];
    assert x[8..12] == s[9..13] == y[8..12];
    assert x[12..16] == s[14..18] == y[12..16];
    assert x[16..20] == s[19..23] == y[16..20];
    assert x[20..] == s[24..] == y[20..];
    assert x == x[..8] + x[8..12] + x[12..16] + x[16..20] + x[20..];
    assert y == y[..8] + y[8..12] + y[12..16] + y[16..20] + y[20..];
    HexInjective(a.bytes, b.bytes);
  }

  function RoomKey(game: Uuid, room: Uuid): string {
    "game:" + Text(game) + "-room:" + Text(room)
  }

  lemma RoomKeyIs(game: Uuid, room: Uuid)
    ensures var k := RoomKey(game, room);
            && |k| == 83 && k[..5] == "game:" && k[41..47] == "-room:"
            && k[5..41] == Text(game) && k[47..] == Text(room)
  {
    hide Text;
  }

  /** Different games or rooms never share a key. */
  lemma RoomKeyInjective(game: Uuid, room: Uuid, game': Uuid, room': Uuid)
    requires RoomKey(game, room) == RoomKey(game', room')
    ensures game == game' && room == room'
  {
    var k := RoomKey(game, room);
    assert Text(game) == k[5..41] == Text(game');
    assert Text(room) == k[47..] == Text(room');
    TextInjective(game, game');
    TextInjective(room, room');
  }

  // ---- addresses ----

  /** An IP address: none, four bytes, sixteen bytes, whose text has a colon, or some other number of bytes. */
  datatype Ip =
    | NoIp
    | V4(a: Byte, b: Byte, c: Byte, d: Byte)
    | V6(groups: string)
    | BadIp(bytes: seq<Byte>)

  datatype UdpAddr = UdpAddr(ip: Ip, zone: string, port: nat)

  function Decimal(n: nat): (s: string)
    ensures s != "" && forall i :: 0 <= i < |s| ==> '0' <= s[i] <= '9'
  {
    if n < 10 then [HEX_DIGITS[n]] else Decimal(n / 10) + [HEX_DIGITS[n % 10]]
  }

  /** The number that decimal digits stand for. */
  function FromDecimal(s: string): nat
    requires forall i :: 0 <= i < |s| ==> '0' <= s[i] <= '9'
  {
    if s == "" then 0 else 10 * FromDecimal(s[..|s| - 1]) + (s[|s| - 1] as nat - '0' as nat)
  }

  /** The digits stand for the number, and the first is not zero unless it is the only one. */
  lemma {:induction false} DecimalIs(n: nat)
    ensures FromDecimal(Decimal(n)) == n && (Decimal(n)[0] == '0' ==> Decimal(n) == "0")
  {
    assert n % 10 < 10 && HEX_DIGITS[n % 10] as nat == n % 10 + '0' as nat;
    if n >= 10 {
      DecimalIs(n / 10);
      assert Decimal(n)[..|Decimal(n)| - 1] == Decimal(n / 10);
      assert Decimal(n)[0] == Decimal(n / 10)[0];
      assert FromDecimal("") == 0 && FromDecimal("0") == 0;
    }
  }

  function IpText(ip: Ip): string {
    match ip
    case NoIp => ""
    case V4(a, b, c, d) => Decimal(a) + "." + Decimal(b) + "." + Decimal(c) + "." + Decimal(d)
    case V6(groups) => groups
    case BadIp(bytes) => "?" + Hex(bytes)
  }

  /** A host with a colon or a percent sign goes into brackets. */
  function JoinHostPort(host: string, port: string): string {
    if ':' in host || '%' in host then "[" + host + "]:" + port else host + ":" + port
  }

  /** The text of a UDP address. */
  function AddressText(u: UdpAddr): string {
    JoinHostPort(if u.zone != "" then IpText(u.ip) + "%" + u.zone else IpText(u.ip), Decimal(u.port))
  }

  ghost predicate IsAddress(text: string) {
    text == "<nil>" || exists u: UdpAddr :: (u.ip.V6? ==> ':' in u.ip.groups) && text == AddressText(u)
  }

  type AddrText = text: string | IsAddress(text) witness "<nil>"

  datatype Addr = Addr(text: AddrText)

  /** The text of an address starts with a digit, a bracket, a colon, a question mark or the sign for nil. */
  lemma AddressStart(u: UdpAddr)
    requires u.ip.V6? ==> ':' in u.ip.groups
    ensures var t := AddressText(u); t != "" && (t[0] in "[:?" || '0' <= t[0] <= '9')
  {
    var host := if u.zone != "" then IpText(u.ip) + "%" + u.zone else IpText(u.ip);
    if u.zone != "" {
      assert host[|IpText(u.ip)|] == '%';
    } else {
      match u.ip
      case NoIp =>
      case V4(a, _, _, _) => assert host[0] == Decimal(a)[0];
      case V6(_) =>
      case BadIp(_) => assert host[0] == '?';
    }
  }

  lemma AddrStart(a: Addr)
    ensures a.text != "" && a.text[0] != 'g'
  {
    if a.text != "<nil>" {
      var u: UdpAddr :| (u.ip.V6? ==> ':' in u.ip.groups) && a.text == AddressText(u);
      hide AddressText;
      AddressStart(u);
    }
  }

  /** The text of an address is never a room key. */
  lemma AddrIsNoRoomKey(a: Addr, game: Uuid, room: Uuid)
    ensures a.text != RoomKey(game, room)
  {
    AddrStart(a);
    assert RoomKey(game, room)[0] == 'g';
  }
}

/** A room and its list of users. */
module Rooms {
  import opened Keys

  datatype User = User(id: Uuid, conn: Addr)

  ghost predicate Distinct(users: seq<User>) {
    forall i, j :: 0 <= i < j < |users| ==> users[i].id != users[j].id
  }

  /** The list without the user `id`, the others in their order. */
  function Without(users: seq<User>, id: Uuid): seq<User> {
    if users == [] then []
    else
      var rest := Without(users[1..], id);
      if users[0].id == id then rest else [users[0]] + rest
  }

  lemma {:induction false} WithoutMembers(users: seq<User>, id: Uuid)
    ensures forall u :: u in Without(users, id) <==> u in users && u.id != id
  {
    if users != [] {
      WithoutMembers(users[1..], id);
      assert users == [users[0]] + users[1..];
    }
  }

  lemma {:induction false} WithoutAbsent(users: seq<User>, id: Uuid)
    requires forall i :: 0 <= i < |users| ==> users[i].id != id
    ensures Without(users, id) == users
  {
    if users != [] {
      WithoutAbsent(users[1..], id);
    }
  }

  lemma {:induction false} WithoutAt(users: seq<User>, id: Uuid, m: nat)
    requires m < |users| && users[m].id == id
    requires forall i :: 0 <= i < |users| && i != m ==> users[i].id != id
    ensures Without(users, id) == users[..m] + users[m + 1..]
  {
    if m == 0 {
      WithoutAbsent(users[1..], id);
    } else {
      WithoutAt(users[1..], id, m - 1);
      assert users[..m] == [users[0]] + users[1..][..m - 1];
      assert users[m + 1..] == users[1..][m..];
    }
  }

  lemma {:induction false} WithoutDistinct(users: seq<User>, id: Uuid)
    requires Distinct(users)
    ensures Distinct(Without(users, id))
  {
    if users != [] {
      WithoutDistinct(users[1..], id);
      WithoutMembers(users[1..], id);
      var rest := Without(users[1..], id);
      forall j | 0 <= j < |rest|
        ensures rest[j].id != users[0].id
      {
        assert rest[j] in users[1..];
      }
    }
  }

  /** The list without the users named in `ids`, the others in their order. */
  ghost function WithoutAll(users: seq<User>, ids: seq<Uuid>): seq<User> {
    if users == [] then []
    else (if users[0].id in ids then [] else [users[0]]) + WithoutAll(users[1..], ids)
  }

  lemma {:induction false} WithoutNone(users: seq<User>)
    ensures WithoutAll(users, []) == users
  {
    if users != [] {
      WithoutNone(users[1..]);
    }
  }

  /** Removing one user after another. */
  lemma {:induction false} WithoutOneMore(users: seq<User>, ids: seq<Uuid>, id: Uuid)
    ensures Without(WithoutAll(users, ids), id) == WithoutAll(users, ids + [id])
  {
    if users != [] {
      var rest := WithoutAll(users[1..], ids);
      WithoutOneMore(users[1..], ids, id);
      assert [] + rest == rest && ([users[0]] + rest)[1..] == rest;
      assert [] + WithoutAll(users[1..], ids + [id]) == WithoutAll(users[1..], ids + [id]);
      assert users[0].id in ids + [id] <==> users[0].id in ids || users[0].id == id;
    }
  }

  /** Who is in a room: the connection of each user id. */
  ghost function ById(users: seq<User>): map<Uuid, Addr> {
    if users == [] then map[]
    else ById(users[..|users| - 1])[users[|users| - 1].id := users[|users| - 1].conn]
  }

  lemma ByIdAppend(users: seq<User>, user: User)
    ensures ById(users + [user]) == ById(users)[user.id := user.conn]
  {
    assert (users + [user])[..|users|] == users;
  }

  lemma {:induction false} ByIdMembers(users: seq<User>)
    requires Distinct(users)
    ensures forall id, conn :: (id in ById(users) && ById(users)[id] == conn) <==> User(id, conn) in users
  {
    if users != [] {
      var n := |users| - 1;
      ByIdMembers(users[..n]);
      assert users == users[..n] + [users[n]];
      forall id, conn
        ensures (id in ById(users) && ById(users)[id] == conn) <==> User(id, conn) in users
      {
        if User(id, conn) in users[..n] {
          assert id != users[n].id;
        }
      }
    }
  }

  lemma ByIdWithout(users: seq<User>, id: Uuid)
    requires Distinct(users)
    ensures ById(Without(users, id)) == ById(users) - {id}
  {
    var r := Without(users, id);
    WithoutDistinct(users, id);
    WithoutMembers(users, id);
    ByIdMembers(users);
    ByIdMembers(r);
    forall x
      ensures x in ById(r) <==> x in ById(users) - {id}
      ensures x in ById(r) ==> ById(r)[x] == ById(users)[x]
    {
      if x in ById(r) {
        assert User(x, ById(r)[x]) in users;
      }
      if x in ById(users) && x != id {
        assert User(x, ById(users)[x]) in r;
      }
    }
  }

  class Room {
    const game: Uuid
    const room: Uuid

    /** The users are the first `len` elements of a backing array that nothing else refers to. */
    var backing: seq<User>
    var len: nat

    ghost predicate Valid()
      reads this
    {
      len <= |backing| && Distinct(Users())
    }

    function Users(): seq<User>
      requires len <= |backing|
      reads this
    {
      backing[..len]
    }

    /** Who is in the room. */
    ghost function Members(): map<Uuid, Addr>
      reads this
    {
      if len <= |backing| then ById(Users()) else map[]
    }

    constructor (game: Uuid, room: Uuid)
      ensures this.game == game && this.room == room
      ensures Valid() && Users() == []
    {
      this.game, this.room := game, room;
      backing, len := [], 0;
    }

    /** Collects the users by id, the new one last, and lists them again in whatever order the map gives. */
    method SetUser(user: User)
      requires Valid()
      modifies this
      ensures Valid()
      ensures ById(Users()) == ById(old(Users()))[user.id := user.conn]
    {
      var unique := Collect(Users());
      unique := unique[user.id := user.conn];
      var all := List(unique);
      backing, len := all, |all|;
      assert Users() == all;
    }

    static method Collect(users: seq<User>) returns (unique: map<Uuid, Addr>)
      ensures unique == ById(users)
    {
      unique := map[];
      for i := 0 to |users|
        invariant unique == ById(users[..i])
      {
        unique := unique[users[i].id := users[i].conn];
        assert users[..i + 1][..i] == users[..i];
      }
      assert users[..|users|] == users;
    }

    static method List(unique: map<Uuid, Addr>) returns (all: seq<User>)
      ensures Distinct(all) && ById(all) == unique
    {
      all := [];
      assert ById(all) == map[];
      hide ById;
      var left := unique.Keys;
      while left != {}
        invariant left <= unique.Keys
        invariant Distinct(all)
        invariant forall i :: 0 <= i < |all| ==> all[i].id !in left
        invariant ById(all) == map id | id in unique.Keys - left :: unique[id]
        decreases left
      {
        var id :| id in left;
        ByIdAppend(all, User(id, unique[id]));
        all := all + [User(id, unique[id])];
        left := left - {id};
      }
    }

    /** Removal by shifting the rest down in place, while ranging over the list as it was at the start. */
    method RemoveUser(id: Uuid)
      requires Valid()
      modifies this
      ensures Valid()
      ensures Users() == Without(old(Users()), id)
      ensures ById(Users()) == ById(old(Users())) - {id}
    {
      hide ById, Without;
      ghost var was := Users();
      ghost var removed := -1;
      var n := len;
      var i := 0;
      while i < n
        invariant 0 <= i <= n == |was| <= |backing| && removed < i
        invariant removed < 0 ==> len == n && Users() == was && forall j :: 0 <= j < i ==> was[j].id != id
        invariant removed >= 0 ==> Shifted(was, removed, id, backing, len)
      {
        if backing[i].id == id {
          // append(users[:i], users[i+1:]...): everything after i moves down by one.
          ShiftDown(was, i, id, backing, len);
          backing := backing[..i] + backing[i + 1..len] + backing[len - 1..];
          len, removed := len - 1, i;
        }
        i := i + 1;
      }
      if removed < 0 {
        WithoutAbsent(was, id);
      } else {
        WithoutAt(was, id, removed);
        ShiftedUsers(was, removed, id, backing, len);
      }
      WithoutDistinct(was, id);
      ByIdWithout(was, id);
    }

    static lemma ShiftDown(was: seq<User>, i: nat, id: Uuid, backing: seq<User>, len: nat)
      requires i < len <= |backing| && backing[..len] == was && was[i].id == id
      ensures Shifted(was, i, id, backing[..i] + backing[i + 1..len] + backing[len - 1..], len - 1)
    {
      assert forall j :: 0 <= j < len ==> was[j] == backing[j];
    }

    static lemma ShiftedUsers(was: seq<User>, m: nat, id: Uuid, backing: seq<User>, len: nat)
      requires Shifted(was, m, id, backing, len)
      ensures backing[..len] == was[..m] + was[m + 1..]
    {
    }

    /** The backing array once element `m` has been removed: the last element is left behind twice. */
    static ghost predicate Shifted(was: seq<User>, m: nat, id: Uuid, backing: seq<User>, len: nat) {
      && m < |was| && was[m].id == id
      && len == |was| - 1 && |backing| >= |was|
      && (forall j :: 0 <= j < m ==> backing[j] == was[j])
      && (forall j :: m <= j < len ==> backing[j] == was[j + 1])
      && backing[len] == was[len]
    }
  }
}
