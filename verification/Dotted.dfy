/** The dotted text of an address: the keys under .../available/ and the ".254" test on them. */
module Dotted {
  import opened Addr

  function Digit(d: nat): char
    requires d < 10
  {
    "0123456789"[d]
  }

  function Decimal(b: Byte): (s: string)
    ensures 1 <= |s| <= 3
    ensures forall i :: 0 <= i < |s| ==> s[i] != '.'
  {
    if b < 10 then [Digit(b)]
    else if b < 100 then [Digit(b / 10), Digit(b % 10)]
    else [Digit(b / 100), Digit(b / 10 % 10), Digit(b % 10)]
  }

  /** net.IP.String */
  function Text(ip: IPv4): string {
    Decimal(ip.b0) + "." + (Decimal(ip.b1) + "." + (Decimal(ip.b2) + "." + Decimal(ip.b3)))
  }

  predicate HasSuffix(s: string, t: string) {
    |t| <= |s| && s[|s| - |t|..] == t
  }

  lemma DigitInjective(x: nat, y: nat)
    requires x < 10 && y < 10 && Digit(x) == Digit(y)
    ensures x == y
  {
  }

  lemma Digits(b: Byte)
    ensures b == 100 * (b / 100) + 10 * (b / 10 % 10) + b % 10
    ensures b < 100 ==> b / 100 == 0 && b / 10 % 10 == b / 10
    ensures b < 10 ==> b / 10 % 10 == 0 && b % 10 == b
  {
  }

  /** The last digits of a decimal, whatever its length. */
  lemma DecimalDigits(b: Byte)
    ensures var s := Decimal(b);
            && s[|s| - 1] == Digit(b % 10)
            && (|s| >= 2 ==> s[|s| - 2] == Digit(b / 10 % 10))
            && (|s| == 3 ==> s[0] == Digit(b / 100))
            && (|s| <= 2 ==> b < 100) && (|s| == 1 ==> b < 10)
  {
    Digits(b);
    hide Digit;
  }

  lemma DecimalInjective(x: Byte, y: Byte)
    requires Decimal(x) == Decimal(y)
    ensures x == y
  {
    Digits(x); Digits(y);
    DecimalDigits(x); DecimalDigits(y);
    hide Decimal, Digit;
    var s := Decimal(x);
    DigitInjective(x % 10, y % 10);
    if |s| >= 2 { DigitInjective(x / 10 % 10, y / 10 % 10); }
    if |s| == 3 { DigitInjective(x / 100, y / 100); }
  }

  /** A number up to the first dot can be read back. */
  lemma {:induction false} FirstOctet(x: Byte, r: string, y: Byte, t: string)
    requires Decimal(x) + "." + r == Decimal(y) + "." + t
    ensures x == y && r == t
  {
    var u, v := Decimal(x), Decimal(y);
    var s := u + "." + r;
    assert s == v + "." + t;
    assert s[|u|] == '.' && s[|v|] == '.';
    assert forall i :: 0 <= i < |u| ==> s[i] == u[i];
    assert forall i :: 0 <= i < |v| ==> s[i] == v[i];
    assert |u| == |v|;
    assert s[..|u|] == u && s[..|v|] == v;
    DecimalInjective(x, y);
    assert s[|u| + 1..] == r && s[|v| + 1..] == t;
  }

  /** Different addresses have different texts, so an etcd key names one address, and ReleaseIP's
      comparison of network texts compares networks. */
  lemma TextInjective(a: IPv4, b: IPv4)
    ensures Text(a) == Text(b) <==> a == b
  {
    if Text(a) == Text(b) {
      FirstOctet(a.b0, Decimal(a.b1) + "." + (Decimal(a.b2) + "." + Decimal(a.b3)),
                 b.b0, Decimal(b.b1) + "." + (Decimal(b.b2) + "." + Decimal(b.b3)));
      FirstOctet(a.b1, Decimal(a.b2) + "." + Decimal(a.b3), b.b1, Decimal(b.b2) + "." + Decimal(b.b3));
      FirstOctet(a.b2, Decimal(a.b3), b.b2, Decimal(b.b3));
      DecimalInjective(a.b3, b.b3);
    }
  }

  // ---------------------------------------------------------------- reading a text

  /** What a character stands for; -1 if it is no digit. */
  function DigitValue(ch: char): int {
    if '0' <= ch <= '9' then ch as int - '0' as int else -1
  }

  /** The number that decimal digits stand for, most significant first. */
  function Value(s: string): int {
    if s == "" then 0 else 10 * Value(s[..|s| - 1]) + DigitValue(s[|s| - 1])
  }

  /** The fields between dots. */
  function Fields(s: string): seq<string>
  {
    if s == "" then [""]
    else if s[0] == '.' then [""] + Fields(s[1..])
    else
      var rest := Fields(s[1..]);
      if rest == [] then [[s[0]]] else [[s[0]] + rest[0]] + rest[1..]
  }

  /** The numbers of a dotted text. */
  function Numbers(fields: seq<string>): seq<int> {
    if fields == [] then [] else [Value(fields[0])] + Numbers(fields[1..])
  }

  lemma DigitRead(d: nat)
    requires d < 10
    ensures DigitValue(Digit(d)) == d
  {
  }

  lemma ValueOfDecimal(b: Byte)
    ensures Value(Decimal(b)) == b
  {
    hide Value;
    Digits(b);
    var x, y, z := Digit(b / 100), Digit(b / 10 % 10), Digit(b % 10);
    DigitRead(b / 100);
    DigitRead(b / 10 % 10);
    DigitRead(b % 10);
    hide Digit, DigitValue;
    assert Decimal(b) == if b < 10 then [z] else if b < 100 then [y, z] else [x, y, z];
    hide Decimal;
    ValueOfUpTo3(x, y, z);
  }

  lemma {:induction false} ValueOfUpTo3(x: char, y: char, z: char)
    ensures Value([z]) == DigitValue(z) && Value([y, z]) == 10 * DigitValue(y) + DigitValue(z)
    ensures Value([x, y, z]) == 100 * DigitValue(x) + 10 * DigitValue(y) + DigitValue(z)
  {
    assert Value([]) == 0;
    hide DigitValue, Value;
    ValueSnoc([], x);
    ValueSnoc([], y);
    ValueSnoc([], z);
    ValueSnoc([y], z);
    ValueSnoc([x], y);
    ValueSnoc([x, y], z);
    assert [] + [x] == [x] && [] + [y] == [y] && [] + [z] == [z];
    assert [y] + [z] == [y, z] && [x] + [y] == [x, y] && [x, y] + [z] == [x, y, z];
  }

  lemma {:induction false} ValueSnoc(s: string, ch: char)
    ensures Value(s + [ch]) == 10 * Value(s) + DigitValue(ch)
  {
    assert (s + [ch])[..|s|] == s;
  }

  /** Up to the first dot there is one field. */
  lemma {:induction false} FieldFirst(d: string, rest: string)
    requires forall i :: 0 <= i < |d| ==> d[i] != '.'
    ensures Fields(d + "." + rest) == [d] + Fields(rest)
  {
    var s := d + "." + rest;
    if d == "" {
      assert s[1..] == rest;
    } else {
      assert s[1..] == d[1..] + "." + rest && s[0] == d[0];
      FieldFirst(d[1..], rest);
      assert [d[0]] + d[1..] == d;
    }
  }

  lemma {:induction false} FieldLast(d: string)
    requires forall i :: 0 <= i < |d| ==> d[i] != '.'
    ensures Fields(d) == [d]
  {
    if d != "" {
      FieldLast(d[1..]);
      assert [d[0]] + d[1..] == d;
    }
  }

  /** Read field by field, in the order of the text, an address's text gives its four octets back. */
  lemma TextReads(ip: IPv4)
    ensures Numbers(Fields(Text(ip))) == [ip.b0, ip.b1, ip.b2, ip.b3]
  {
    var d0, d1, d2, d3 := Decimal(ip.b0), Decimal(ip.b1), Decimal(ip.b2), Decimal(ip.b3);
    hide Decimal, Fields, Value;
    FieldsOf(d0, d1, d2, d3);
    assert Text(ip) == d0 + "." + (d1 + "." + (d2 + "." + d3));
    ValueOfDecimal(ip.b0);
    ValueOfDecimal(ip.b1);
    ValueOfDecimal(ip.b2);
    ValueOfDecimal(ip.b3);
    NumbersOf(d0, d1, d2, d3);
  }

  lemma {:induction false} FieldsOf(d0: string, d1: string, d2: string, d3: string)
    requires forall d, i :: d in {d0, d1, d2, d3} && 0 <= i < |d| ==> d[i] != '.'
    ensures Fields(d0 + "." + (d1 + "." + (d2 + "." + d3))) == [d0, d1, d2, d3]
  {
    hide Fields;
    FieldFirst(d0, d1 + "." + (d2 + "." + d3));
    FieldFirst(d1, d2 + "." + d3);
    FieldFirst(d2, d3);
    FieldLast(d3);
  }

  lemma {:induction false} NumbersOf(d0: string, d1: string, d2: string, d3: string)
    ensures Numbers([d0, d1, d2, d3]) == [Value(d0), Value(d1), Value(d2), Value(d3)]
  {
    hide Value;
    assert [d0, d1, d2, d3][1..] == [d1, d2, d3] && [d1, d2, d3][1..] == [d2, d3] && [d2, d3][1..] == [d3];
    assert Numbers([d3]) == [Value(d3)];
    assert Numbers([d2, d3]) == [Value(d2), Value(d3)];
    assert Numbers([d1, d2, d3]) == [Value(d1), Value(d2), Value(d3)];
  }

  // ---------------------------------------------------------------- the ".254" test

  /** A text of four characters, one by one. */
  lemma {:induction false} Last4(s: string, t: string)
    requires |t| == 4
    ensures HasSuffix(s, t) <==>
            |s| >= 4 && s[|s| - 4] == t[0] && s[|s| - 3] == t[1] && s[|s| - 2] == t[2] && s[|s| - 1] == t[3]
  {
    if |s| >= 4 {
      var u := s[|s| - 4..];
      assert u[0] == s[|s| - 4] && u[1] == s[|s| - 3] && u[2] == s[|s| - 2] && u[3] == s[|s| - 1];
    }
  }

  lemma {:induction false} SuffixOfLast(head: string, d: string)
    requires 1 <= |d| <= 3 && forall i :: 0 <= i < |d| ==> d[i] != '.'
    ensures HasSuffix(head + "." + d, ".254") <==> d == "254"
  {
    var s := head + "." + d;
    assert s[|head|] == '.' && forall i :: 0 <= i < |d| ==> s[|head| + 1 + i] == d[i];
    Last4(s, ".254");
  }

  /** What comes before the last dot. */
  lemma {:induction false} Head(prefix: string, ip: IPv4) returns (head: string)
    ensures prefix + Text(ip) == head + "." + Decimal(ip.b3)
  {
    hide Decimal;
    head := prefix + Decimal(ip.b0) + "." + Decimal(ip.b1) + "." + Decimal(ip.b2);
  }

  /** The text test selects exactly the addresses whose low octet is 254. */
  lemma {:induction false} Suffix254(prefix: string, ip: IPv4)
    ensures HasSuffix(prefix + Text(ip), ".254") <==> ip.b3 == 254
  {
    hide HasSuffix, Text;
    var d := Decimal(ip.b3);
    assert Decimal(254) == "254";
    var head := Head(prefix, ip);
    SuffixOfLast(head, d);
    if d == "254" { DecimalInjective(ip.b3, 254); }
  }

  /** On the number an address stands for, the test reads the last eight bits. */
  lemma {:induction false} Suffix254OfNumber(prefix: string, n: nat)
    ensures HasSuffix(prefix + Text(Long2IP(n)), ".254") <==> n % 256 == 254
  {
    Suffix254(prefix, Long2IP(n));
  }
}
