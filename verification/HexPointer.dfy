/** The printer of pointer values. */
module HexPointer {
  const HEX_DIGITS: string := "0123456789abcdef"

  const BUFFER := 18

  function Digit(c: char): nat {
    if '0' <= c <= '9' then c as nat - '0' as nat else if 'a' <= c <= 'f' then c as nat - 'a' as nat + 10 else 0
  }

  function Pow16(n: nat): nat {
    if n == 0 then 1 else 16 * Pow16(n - 1)
  }

  /** The number that a string of hexadecimal digits stands for. */
  function Read(s: string): nat {
    if s == "" then 0 else 16 * Read(s[..|s| - 1]) + Digit(s[|s| - 1])
  }

  lemma {:induction false} ReadPrepend(c: char, s: string)
    ensures Read([c] + s) == Digit(c) * Pow16(|s|) + Read(s)
  {
    if s == "" {
      assert ([c] + s)[..0] == "" && [c] + s == [c];
    } else {
      var n := |s| - 1;
      ReadAppend([c] + s[..n], s[n]);
      ReadAppend(s[..n], s[n]);
      assert [c] + s == [c] + s[..n] + [s[n]] && s == s[..n] + [s[n]];
      hide Read, Digit;
      ReadPrepend(c, s[..n]);
      Distribute(Digit(c), Read(s[..n]), Pow16(n));
    }
  }

  lemma ReadAppend(s: string, c: char)
    ensures Read(s + [c]) == 16 * Read(s) + Digit(c)
  {
    assert (s + [c])[..|s|] == s;
  }

  function HexDigit(n: nat): char
    requires n < 16
  {
    HEX_DIGITS[n]
  }

  predicate IsHex(s: string) {
    forall k :: 0 <= k < |s| ==> s[k] in HEX_DIGITS
  }

  lemma Pow16Of16()
    ensures Pow16(16) == 0x1_0000_0000_0000_0000
  {
    assert Pow16(8) == 0x1_0000_0000;
  }

  /** The digits are hexadecimal, the first of them not zero, and read back to the number. */
  predicate Spells(digits: string, p: nat) {
    digits != "" && IsHex(digits) && digits[0] != '0' && Read(digits) == p
  }

  /** Never leaves the buffer of 18 bytes; the digits spell the number. */
  method PrintHexPtr(p: nat) returns (out: string)
    requires p < 0x1_0000_0000_0000_0000
    ensures p == 0 ==> out == "<nil>"
    ensures p != 0 ==> 2 <= |out| <= BUFFER && out[..2] == "0x" && Spells(out[2..], p)
  {
    NothingWritten(p);
    hide Read, Pow16, Digit, Written, HexDigit, Spells;
    if p == 0 {
      return "<nil>";
    }
    var num := p;
    var buf := new char[BUFFER];
    var i := buf.Length - 1;
    Pow16Of16();
    assert buf[i + 1..] == "";
    while num >= 16
      invariant 2 <= i < BUFFER
      invariant 0 < num < Pow16(i - 1)
      invariant Written(p, num, buf[i + 1..])
      decreases num
    {
      ghost var tail := buf[i + 1..];
      PutDigit(p, num, tail, i - 1);
      buf[i] := HexDigit(num % 16);
      assert buf[i..] == [HexDigit(num % 16)] + tail;
      num := num / 16;
      i := i - 1;
    }
    ghost var tail := buf[i + 1..];
    PutLast(p, num, tail);
    buf[i] := HexDigit(num);
    assert buf[i..] == [HexDigit(num)] + tail;
    ghost var digits := buf[i..];
    i := i - 1;
    buf[i] := 'x';
    i := i - 1;
    buf[i] := '0';
    out := buf[i..];
    assert out[2..] == digits;
  }

  /** The tail holds the low digits of `p`, and `num` is what remains. */
  ghost predicate Written(p: nat, num: nat, tail: string) {
    IsHex(tail) && num * Pow16(|tail|) + Read(tail) == p
  }

  lemma NothingWritten(p: nat)
    ensures Written(p, p, "")
  {
  }

  lemma DigitOf(n: nat)
    requires n < 16
    ensures Digit(HexDigit(n)) == n && HEX_DIGITS[n] in HEX_DIGITS && (n > 0 ==> HexDigit(n) != '0')
  {
  }

  lemma PutDigit(p: nat, num: nat, tail: string, room: nat)
    requires Written(p, num, tail) && 16 <= num < Pow16(room)
    ensures Written(p, num / 16, [HexDigit(num % 16)] + tail)
    ensures room >= 2 && num / 16 < Pow16(room - 1)
  {
    MoveDigit(p, num / 16, num % 16, tail);
    RoomShrinks(num / 16, num % 16, room);
  }

  lemma MoveDigit(p: nat, q: nat, r: nat, tail: string)
    requires r < 16 && Written(p, 16 * q + r, tail)
    ensures Written(p, q, [HexDigit(r)] + tail)
  {
    DigitOf(r);
    var c := HexDigit(r);
    ReadPrepend(c, tail);
    var w := Pow16(|tail|);
    hide Read, Digit;
    assert IsHex([c] + tail);
    Distribute(q, r, w);
    assert Pow16(|[c] + tail|) == 16 * w;
  }

  lemma RoomShrinks(q: nat, r: nat, room: nat)
    requires 0 < q && 16 * q + r < Pow16(room)
    ensures room >= 2 && q < Pow16(room - 1)
  {
    assert Pow16(0) == 1 && Pow16(1) == 16;
  }

  lemma PutLast(p: nat, num: nat, tail: string)
    requires Written(p, num, tail) && 0 < num < 16
    ensures Spells([HexDigit(num)] + tail, p)
  {
    DigitOf(num);
    ReadPrepend(HexDigit(num), tail);
  }

  lemma Distribute(q: nat, r: nat, w: nat)
    ensures (16 * q + r) * w == q * (16 * w) + r * w
    ensures 16 * (q * w + r) == q * (16 * w) + 16 * r
  {
  }
}
