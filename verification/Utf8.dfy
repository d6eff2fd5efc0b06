/** UTF-8, and why it loses nothing. */
module Utf8 {
  import opened Identity

  function EncodeChar(c: char): Bytes {
    var n := c as int;
    if n < 0x80 then [n as byte]
    else if n < 0x800 then [(0xC0 + n / 64) as byte, Trailing(n)]
    else if n < 0x1_0000 then [(0xE0 + n / 4096) as byte, Trailing(n / 64), Trailing(n)]
    else [(0xF0 + n / 262_144) as byte, Trailing(n / 4096), Trailing(n / 64), Trailing(n)]
  }

  function Trailing(n: nat): byte {
    (0x80 + n % 64) as byte
  }

  /** The form and the value of a code: lead and continuation bytes as in section 3 of RFC 3629. */
  lemma EncodeCharReads(c: char)
    ensures var n, b := c as int, EncodeChar(c);
            match |b|
            case 1 => n < 0x80 && b[0] as int == n
            case 2 =>
              && 0x80 <= n < 0x800 && 0xC2 <= b[0] < 0xE0 && 0x80 <= b[1] < 0xC0
              && n == (b[0] as int - 0xC0) * 64 + (b[1] as int - 0x80)
            case 3 =>
              && 0x800 <= n < 0x1_0000 && 0xE0 <= b[0] < 0xF0 && 0x80 <= b[1] < 0xC0 && 0x80 <= b[2] < 0xC0
              && n == (b[0] as int - 0xE0) * 4096 + (b[1] as int - 0x80) * 64 + (b[2] as int - 0x80)
            case 4 =>
              && 0x1_0000 <= n && 0xF0 <= b[0] < 0xF5
              && 0x80 <= b[1] < 0xC0 && 0x80 <= b[2] < 0xC0 && 0x80 <= b[3] < 0xC0
              && n == (b[0] as int - 0xF0) * 262_144 + (b[1] as int - 0x80) * 4096
                      + (b[2] as int - 0x80) * 64 + (b[3] as int - 0x80)
            case _ => false
  {
    var n := c as int;
    assert n == 64 * (n / 64) + n % 64;
    assert n / 64 == 64 * (n / 64 / 64) + n / 64 % 64 && n / 64 / 64 == n / 4096;
    assert n / 4096 == 64 * (n / 4096 / 64) + n / 4096 % 64 && n / 4096 / 64 == n / 262_144;
  }

  /** The codes of the characters of `s`, one after the other. */
  function Flat(code: char -> Bytes, s: string): Bytes {
    if s == "" then [] else code(s[0]) + Flat(code, s[1..])
  }

  function Encode(s: string): Bytes {
    Flat(EncodeChar, s)
  }

  /** The first byte of a character tells how many there are. */
  function LengthOf(first: byte): nat {
    if first < 0x80 then 1 else if first < 0xE0 then 2 else if first < 0xF0 then 3 else 4
  }

  lemma FirstByteTellsLength(c: char)
    ensures |EncodeChar(c)| == LengthOf(EncodeChar(c)[0])
  {
  }

  lemma EncodeCharIsInjective(c: char, d: char)
    requires EncodeChar(c) == EncodeChar(d)
    ensures c == d
  {
    FirstByteTellsLength(c);
    FirstByteTellsLength(d);
    var m, n := c as int, d as int;
    var a, b := EncodeChar(c), EncodeChar(d);
    if |a| == 2 {
      SameDigits(m, n, a[1]);
    } else if |a| == 3 {
      SameDigits(m, n, a[2]);
      SameDigits(m / 64, n / 64, a[1]);
      assert m / 4096 == m / 64 / 64 && n / 4096 == n / 64 / 64;
    } else if |a| == 4 {
      SameDigits(m, n, a[3]);
      SameDigits(m / 64, n / 64, a[2]);
      SameDigits(m / 4096, n / 4096, a[1]);
      assert m / 4096 == m / 64 / 64 && n / 4096 == n / 64 / 64;
      assert m / 262_144 == m / 4096 / 64 && n / 262_144 == n / 4096 / 64;
    }
  }

  lemma SameDigits(m: nat, n: nat, b: byte)
    requires Trailing(m) == b == Trailing(n)
    ensures m / 64 == n / 64 ==> m == n
  {
    assert m % 64 == n % 64;
    assert m == 64 * (m / 64) + m % 64 && n == 64 * (n / 64) + n % 64;
  }

  /** Equal bytes come from equal strings. */
  lemma {:induction false} EncodeIsInjective(s: string, t: string)
    requires Encode(s) == Encode(t)
    ensures s == t
  {
    if s != "" && t != "" {
      var a, b := EncodeChar(s[0]), EncodeChar(t[0]);
      var whole := Encode(s);
      assert whole[0] == a[0] == b[0];
      FirstByteTellsLength(s[0]);
      FirstByteTellsLength(t[0]);
      assert whole[..|a|] == a && whole[..|b|] == b;
      EncodeCharIsInjective(s[0], t[0]);
      assert whole[|a|..] == Encode(s[1..]) && whole[|b|..] == Encode(t[1..]);
      EncodeIsInjective(s[1..], t[1..]);
      assert s == [s[0]] + s[1..] && t == [t[0]] + t[1..];
    }
  }

  lemma {:induction false} FlatJoins(code: char -> Bytes, s: string, t: string)
    ensures Flat(code, s + t) == Flat(code, s) + Flat(code, t)
  {
    if s == "" {
      assert s + t == t;
    } else {
      FlatJoins(code, s[1..], t);
      assert (s + t)[0] == s[0] && (s + t)[1..] == s[1..] + t;
      var head, a, b := code(s[0]), Flat(code, s[1..]), Flat(code, t);
      assert head + (a + b) == (head + a) + b;
    }
  }

  lemma EncodeJoins(s: string, t: string)
    ensures Encode(s + t) == Encode(s) + Encode(t)
  {
    FlatJoins(EncodeChar, s, t);
  }
}
