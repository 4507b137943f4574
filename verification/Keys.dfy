/** The two composite keys the daemon relies on: the mirror key, joined by U+001F, and the
    NUL-joined text whose digest names a command. Both must tell their parts apart although
    the parts are free text. */
module Keys {
  import opened Model

  type Byte = x: int | 0 <= x < 256

  const NUL: char := '\U{0000}'

  /** A part containing no `sep` ends at the first separator. */
  lemma {:induction false} SplitAtFirst(sep: char, a: string, x: string, b: string, y: string)
    requires sep !in a && sep !in b
    requires a + [sep] + x == b + [sep] + y
    ensures a == b && x == y
  {
    var left, right := a + [sep] + x, b + [sep] + y;
    assert left[|a|] == sep && right[|b|] == sep;
    assert forall k :: 0 <= k < |a| ==> left[k] == a[k];
    assert forall k :: 0 <= k < |b| ==> right[k] == b[k];
    assert left[..|a|] == a && right[..|b|] == b;
    assert left[|a| + 1..] == x && right[|b| + 1..] == y;
  }

  /** A part containing no `sep` starts after the last separator. */
  lemma {:induction false} SplitAtLast(sep: char, x: string, a: string, y: string, b: string)
    requires sep !in a && sep !in b
    requires x + [sep] + a == y + [sep] + b
    ensures x == y && a == b
  {
    var left, right := x + [sep] + a, y + [sep] + b;
    assert left[|x|] == sep && right[|y|] == sep;
    assert forall k :: |x| < k < |left| ==> left[k] == a[k - |x| - 1];
    assert forall k :: |y| < k < |right| ==> right[k] == b[k - |y| - 1];
    assert left[..|x|] == x && right[..|y|] == y;
    assert left[|x| + 1..] == a && right[|y| + 1..] == b;
  }

  /** Mirror keys agree exactly when all three parts agree, whatever the order ids contain,
      as long as the account ids are free of U+001F. */
  lemma MirrorKeyInjective(s1: string, o1: string, t1: string, s2: string, o2: string, t2: string)
    requires UNIT_SEPARATOR !in s1 && UNIT_SEPARATOR !in s2
    requires UNIT_SEPARATOR !in t1 && UNIT_SEPARATOR !in t2
    ensures MirrorKey(s1, o1, t1) == MirrorKey(s2, o2, t2) <==> s1 == s2 && o1 == o2 && t1 == t2
  {
    if MirrorKey(s1, o1, t1) == MirrorKey(s2, o2, t2) {
      SplitAtLast(UNIT_SEPARATOR, s1 + [UNIT_SEPARATOR] + o1, t1, s2 + [UNIT_SEPARATOR] + o2, t2);
      SplitAtFirst(UNIT_SEPARATOR, s1, o1, s2, o2);
    }
  }

  /** With a separator inside an account id two different bindings share one key. */
  lemma MirrorKeyNeedsSeparatorFreeAccounts()
    ensures MirrorKey("a", "x" + [UNIT_SEPARATOR] + "b", "c") == MirrorKey("a" + [UNIT_SEPARATOR] + "x", "b", "c")
  {
    var us := [UNIT_SEPARATOR];
    assert "a" + us + ("x" + us + "b") + us + "c" == "a" + us + "x" + us + "b" + us + "c";
  }

  predicate Suffix(x: string, y: string) {
    |x| <= |y| && y[|y| - |x|..] == x
  }

  lemma SuffixesCompare(x: string, a: string, y: string, b: string)
    requires x + a == y + b
    ensures Suffix(a, b) || Suffix(b, a)
  {
    if |a| <= |b| {
      assert (y + b)[|y| + |b| - |a|..] == b[|b| - |a|..] && (x + a)[|x|..] == a;
    } else {
      assert (x + a)[|x| + |a| - |b|..] == a[|a| - |b|..] && (y + b)[|y|..] == b;
    }
  }

  lemma PrefixesCompare(a: string, x: string, b: string, y: string)
    requires a + x == b + y
    ensures a <= b || b <= a
  {
    if |a| <= |b| {
      assert (a + x)[..|a|] == a && (b + y)[..|a|] == b[..|a|];
    } else {
      assert (a + x)[..|b|] == a[..|b|] && (b + y)[..|b|] == b;
    }
  }

  /** Two account pairs can produce one key for some order ids. */
  ghost predicate KeysMeet(s1: string, t1: string, s2: string, t2: string) {
    exists o1, o2 :: MirrorKey(s1, o1, t1) == MirrorKey(s2, o2, t2)
  }

  /** Read up to its separator one source begins the other, and from its separator one target ends
      the other. */
  predicate Overlapping(s1: string, t1: string, s2: string, t2: string) {
    var us := [UNIT_SEPARATOR];
    (s1 + us <= s2 + us || s2 + us <= s1 + us) && (Suffix(us + t1, us + t2) || Suffix(us + t2, us + t1))
  }

  lemma KeyParts(s: string, o: string, t: string)
    ensures MirrorKey(s, o, t) == (s + [UNIT_SEPARATOR]) + (o + ([UNIT_SEPARATOR] + t))
    ensures MirrorKey(s, o, t) == (s + [UNIT_SEPARATOR] + o) + ([UNIT_SEPARATOR] + t)
  {
  }

  lemma Regroup(a: string, x: string, y: string, b: string)
    ensures (a + x) + ("" + (y + b)) == a + ((x + y) + b)
    ensures (a + x) + (y + b) == a + (x + (y + b))
  {
  }

  lemma MeetWhenSourceBegins(s1: string, t1: string, s2: string, t2: string)
    requires s1 + [UNIT_SEPARATOR] <= s2 + [UNIT_SEPARATOR]
    requires Suffix([UNIT_SEPARATOR] + t1, [UNIT_SEPARATOR] + t2) || Suffix([UNIT_SEPARATOR] + t2, [UNIT_SEPARATOR] + t1)
    ensures KeysMeet(s1, t1, s2, t2)
  {
    hide MirrorKey;
    var head, a, b := s1 + [UNIT_SEPARATOR], [UNIT_SEPARATOR] + t1, [UNIT_SEPARATOR] + t2;
    var x := (s2 + [UNIT_SEPARATOR])[|head|..];
    assert s2 + [UNIT_SEPARATOR] == head + x;
    if Suffix(a, b) {
      var y := b[..|b| - |a|];
      assert b == y + a;
      KeyParts(s1, x + y, t1);
      KeyParts(s2, "", t2);
      Regroup(head, x, y, a);
      assert MirrorKey(s1, x + y, t1) == MirrorKey(s2, "", t2);
    } else {
      var y := a[..|a| - |b|];
      assert a == y + b;
      KeyParts(s1, x, t1);
      KeyParts(s2, y, t2);
      Regroup(head, x, y, b);
      assert MirrorKey(s1, x, t1) == MirrorKey(s2, y, t2);
    }
  }

  /** Exactly when the keys of two account pairs can meet. */
  lemma KeysMeetIffOverlapping(s1: string, t1: string, s2: string, t2: string)
    ensures KeysMeet(s1, t1, s2, t2) <==> Overlapping(s1, t1, s2, t2)
  {
    var us := [UNIT_SEPARATOR];
    if KeysMeet(s1, t1, s2, t2) {
      var o1, o2 :| MirrorKey(s1, o1, t1) == MirrorKey(s2, o2, t2);
      KeyParts(s1, o1, t1);
      KeyParts(s2, o2, t2);
      PrefixesCompare(s1 + us, o1 + (us + t1), s2 + us, o2 + (us + t2));
      SuffixesCompare(s1 + us + o1, us + t1, s2 + us + o2, us + t2);
    }
    if Overlapping(s1, t1, s2, t2) {
      if s1 + us <= s2 + us {
        MeetWhenSourceBegins(s1, t1, s2, t2);
      } else {
        MeetWhenSourceBegins(s2, t2, s1, t1);
      }
    }
  }

  /** The text fed to the hasher (crates/copier-core/src/routing.rs:213-220). */
  function CommandPreimage(eventId: string, routeId: string, target: string): string {
    "copierr:v1" + [NUL] + eventId + [NUL] + routeId + [NUL] + target
  }

  /** The preimage determines the event, the route and the target, for any event id. */
  lemma PreimageInjective(e1: string, r1: string, t1: string, e2: string, r2: string, t2: string)
    requires NUL !in r1 && NUL !in t1 && NUL !in r2 && NUL !in t2
    ensures CommandPreimage(e1, r1, t1) == CommandPreimage(e2, r2, t2) <==> e1 == e2 && r1 == r2 && t1 == t2
  {
    if CommandPreimage(e1, r1, t1) == CommandPreimage(e2, r2, t2) {
      var head := "copierr:v1" + [NUL];
      SplitAtLast(NUL, head + e1 + [NUL] + r1, t1, head + e2 + [NUL] + r2, t2);
      SplitAtLast(NUL, head + e1, r1, head + e2, r2);
      assert (head + e1)[|head|..] == e1 && (head + e2)[|head|..] == e2;
    }
  }

  /** A NUL in a route id lets two routes of one event share a command id. */
  lemma PreimageNeedsNulFreeRoutes(e: string)
    ensures CommandPreimage(e, "a" + [NUL] + "b", "c") == CommandPreimage(e, "a", "b" + [NUL] + "c")
  {
    var z := [NUL];
    var head := "copierr:v1" + z + e + z;
    assert head + ("a" + z + "b") + z + "c" == head + "a" + z + ("b" + z + "c");
  }

  /** What follows the event id in a preimage. */
  function RoutePart(routeId: string, target: string): string {
    [NUL] + routeId + [NUL] + target
  }

  /** Two routes can produce one preimage for some event ids. */
  ghost predicate PreimagesMeet(r1: string, t1: string, r2: string, t2: string) {
    exists e1, e2 :: CommandPreimage(e1, r1, t1) == CommandPreimage(e2, r2, t2)
  }

  lemma PreimageParts(e: string, r: string, t: string)
    ensures CommandPreimage(e, r, t) == ("copierr:v1" + [NUL]) + (e + RoutePart(r, t))
  {
    assert CommandPreimage(e, r, t) == "copierr:v1" + [NUL] + e + ([NUL] + r + [NUL] + t);
  }

  lemma MeetWhenSuffix(r1: string, t1: string, r2: string, t2: string)
    requires Suffix(RoutePart(r1, t1), RoutePart(r2, t2))
    ensures PreimagesMeet(r1, t1, r2, t2)
  {
    var a, b := RoutePart(r1, t1), RoutePart(r2, t2);
    var e := b[..|b| - |a|];
    assert e + a == "" + b;
    PreimageParts(e, r1, t1);
    PreimageParts("", r2, t2);
    assert CommandPreimage(e, r1, t1) == CommandPreimage("", r2, t2);
  }

  /** Exactly when the preimages of two routes can meet: one's part ends the other's. Of two
      different NUL-free routes neither does. */
  lemma PreimagesMeetIffSuffix(r1: string, t1: string, r2: string, t2: string)
    ensures PreimagesMeet(r1, t1, r2, t2)
       <==> Suffix(RoutePart(r1, t1), RoutePart(r2, t2)) || Suffix(RoutePart(r2, t2), RoutePart(r1, t1))
  {
    if PreimagesMeet(r1, t1, r2, t2) {
      var e1, e2 :| CommandPreimage(e1, r1, t1) == CommandPreimage(e2, r2, t2);
      PreimageParts(e1, r1, t1);
      PreimageParts(e2, r2, t2);
      var head := "copierr:v1" + [NUL];
      assert head + (e1 + RoutePart(r1, t1)) == (head + e1) + RoutePart(r1, t1);
      assert head + (e2 + RoutePart(r2, t2)) == (head + e2) + RoutePart(r2, t2);
      SuffixesCompare(head + e1, RoutePart(r1, t1), head + e2, RoutePart(r2, t2));
    }
    if Suffix(RoutePart(r1, t1), RoutePart(r2, t2)) {
      MeetWhenSuffix(r1, t1, r2, t2);
    } else if Suffix(RoutePart(r2, t2), RoutePart(r1, t1)) {
      MeetWhenSuffix(r2, t2, r1, t1);
      var e2, e1 :| CommandPreimage(e2, r2, t2) == CommandPreimage(e1, r1, t1);
    }
  }

  const HEX_DIGITS: string := "0123456789abcdef"

  function HexByte(b: Byte): string {
    [HEX_DIGITS[b / 16], HEX_DIGITS[b % 16]]
  }

  /** Two lower-case digits a byte, in order. */
  function Hex(bytes: seq<Byte>): (text: string)
    ensures |text| == 2 * |bytes|
    ensures forall k :: 0 <= k < |text| ==> text[k] in HEX_DIGITS
  {
    if bytes == [] then "" else Hex(bytes[..|bytes| - 1]) + HexByte(bytes[|bytes| - 1])
  }

  lemma HexDigitsDistinct(i: int, j: int)
    requires 0 <= i < 16 && 0 <= j < 16 && HEX_DIGITS[i] == HEX_DIGITS[j]
    ensures i == j
  {
  }

  lemma HexByteInjective(x: Byte, y: Byte)
    requires HexByte(x) == HexByte(y)
    ensures x == y
  {
    assert HexByte(x)[0] == HexByte(y)[0] && HexByte(x)[1] == HexByte(y)[1];
    HexDigitsDistinct(x / 16, y / 16);
    HexDigitsDistinct(x % 16, y % 16);
  }

  lemma HexSplit(a: seq<Byte>)
    requires a != []
    ensures Hex(a)[..2 * |a| - 2] == Hex(a[..|a| - 1]) && Hex(a)[2 * |a| - 2..] == HexByte(a[|a| - 1])
  {
    ConcatParts(Hex(a[..|a| - 1]), HexByte(a[|a| - 1]));
  }

  lemma ConcatParts(x: string, y: string)
    ensures (x + y)[..|x|] == x && (x + y)[|x|..] == y
  {
  }

  lemma {:induction false} HexInjective(a: seq<Byte>, b: seq<Byte>)
    ensures Hex(a) == Hex(b) <==> a == b
  {
    if Hex(a) == Hex(b) && a != [] {
      HexSplit(a);
      HexSplit(b);
      HexByteInjective(a[|a| - 1], b[|b| - 1]);
      HexInjective(a[..|a| - 1], b[..|b| - 1]);
      assert a == a[..|a| - 1] + [a[|a| - 1]] && b == b[..|b| - 1] + [b[|b| - 1]];
    }
  }

  /** What a hexadecimal digit stands for. */
  function Nibble(c: char): int {
    if '0' <= c <= '9' then c as int - '0' as int else c as int - 'a' as int + 10
  }

  lemma HexByteReads(b: Byte)
    ensures 16 * Nibble(HexByte(b)[0]) + Nibble(HexByte(b)[1]) == b
  {
    NibbleReads(b / 16);
    NibbleReads(b % 16);
  }

  lemma NibbleReads(n: int)
    requires 0 <= n < 16
    ensures Nibble(HEX_DIGITS[n]) == n
  {
  }

  /** Each pair of digits, the high one first, is its byte. */
  lemma {:induction false} HexReads(bytes: seq<Byte>, k: nat)
    requires k < |bytes|
    ensures 16 * Nibble(Hex(bytes)[2 * k]) + Nibble(Hex(bytes)[2 * k + 1]) == bytes[k]
  {
    hide Nibble, Hex, HexByte;
    var n := |bytes| - 1;
    HexSplit(bytes);
    if k < n {
      HexReads(bytes[..n], k);
      Within(Hex(bytes), Hex(bytes[..n]), HexByte(bytes[n]), 2 * k);
      Within(Hex(bytes), Hex(bytes[..n]), HexByte(bytes[n]), 2 * k + 1);
    } else {
      HexByteReads(bytes[n]);
      Within(Hex(bytes), Hex(bytes[..n]), HexByte(bytes[n]), 2 * n);
      Within(Hex(bytes), Hex(bytes[..n]), HexByte(bytes[n]), 2 * n + 1);
    }
  }

  lemma Within(text: string, x: string, y: string, i: nat)
    requires i < |text| && |x| <= |text| && text[..|x|] == x && text[|x|..] == y
    ensures text[i] == if i < |x| then x[i] else y[i - |x|]
  {
  }

  /** A command id: the hexadecimal form of the truncated digest of the preimage. */
  function CommandId(digest: string -> seq<Byte>, eventId: string, routeId: string, target: string): string {
    Hex(digest(CommandPreimage(eventId, routeId, target)))
  }

  ghost predicate CollisionFree(digest: string -> seq<Byte>) {
    forall a, b :: digest(a) == digest(b) ==> a == b
  }

  /** Command ids name (event, route, target) triples uniquely. */
  lemma CommandIdInjective(digest: string -> seq<Byte>, e1: string, r1: string, t1: string, e2: string, r2: string, t2: string)
    requires CollisionFree(digest)
    requires NUL !in r1 && NUL !in t1 && NUL !in r2 && NUL !in t2
    ensures CommandId(digest, e1, r1, t1) == CommandId(digest, e2, r2, t2) <==> e1 == e2 && r1 == r2 && t1 == t2
  {
    HexInjective(digest(CommandPreimage(e1, r1, t1)), digest(CommandPreimage(e2, r2, t2)));
    PreimageInjective(e1, r1, t1, e2, r2, t2);
  }

  /** The hex loop of `command_id`: the string it fills is the digest in hexadecimal. */
  method FormatCommandId(digest: string -> seq<Byte>, eventId: string, routeId: string, target: string)
    returns (out: string)
    ensures out == CommandId(digest, eventId, routeId, target)
  {
    var bytes := digest(CommandPreimage(eventId, routeId, target));
    out := "";
    for i := 0 to |bytes|
      invariant out == Hex(bytes[..i])
    {
      assert bytes[..i + 1][..i] == bytes[..i];
      out := out + HexByte(bytes[i]);
    }
    assert bytes[..|bytes|] == bytes;
  }

  /* A digest without collisions exists: three bytes a character, after a leading zero. */

  function CharBytes(c: char): seq<Byte> {
    [c as int / 65536, c as int % 65536 / 256, c as int % 65536 % 256]
  }

  function Spread(text: string): (bytes: seq<Byte>)
    ensures |bytes| == 3 * |text| + 1
  {
    if text == "" then [0] else Spread(text[..|text| - 1]) + CharBytes(text[|text| - 1])
  }

  lemma SpreadSplit(text: string)
    requires text != ""
    ensures Spread(text)[..3 * |text| - 2] == Spread(text[..|text| - 1])
    ensures Spread(text)[3 * |text| - 2..] == CharBytes(text[|text| - 1])
  {
  }

  lemma CharBytesInjective(c: char, d: char)
    requires CharBytes(c) == CharBytes(d)
    ensures c == d
  {
    var x, y: int := c as int % 65536, d as int % 65536;
    assert CharBytes(c)[0] == CharBytes(d)[0] && CharBytes(c)[1] == CharBytes(d)[1] && CharBytes(c)[2] == CharBytes(d)[2];
    assert x == 256 * (x / 256) + x % 256 && y == 256 * (y / 256) + y % 256;
    assert c as int == 65536 * (c as int / 65536) + x && d as int == 65536 * (d as int / 65536) + y;
  }

  lemma {:induction false} SpreadInjective(a: string, b: string)
    requires Spread(a) == Spread(b)
    ensures a == b
  {
    if a != "" {
      SpreadSplit(a);
      SpreadSplit(b);
      CharBytesInjective(a[|a| - 1], b[|b| - 1]);
      SpreadInjective(a[..|a| - 1], b[..|b| - 1]);
      assert a == a[..|a| - 1] + [a[|a| - 1]] && b == b[..|b| - 1] + [b[|b| - 1]];
    }
  }

  /** The hypothesis on the hash can be met. */
  lemma CollisionFreeDigestExists()
    ensures CollisionFree(Spread) && forall text :: Spread(text) != []
  {
    forall a, b | Spread(a) == Spread(b)
      ensures a == b
    {
      SpreadInjective(a, b);
    }
  }
}
