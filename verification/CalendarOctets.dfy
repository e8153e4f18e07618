/** Octets as section 3 of RFC 3629 writes them, against the lengths the calendar folds by. */
module CalendarOctets {
  import opened Prelude
  import opened CalendarText

  function Utf8(c: char): (r: seq<int>)
    ensures r != []
  {
    var n := c as int;
    if n < 128 then [n]
    else if n < 2048 then [192 + n / 64, 128 + n % 64]
    else if n < 65536 then [224 + n / 64 / 64, 128 + n / 64 % 64, 128 + n % 64]
    else [240 + n / 64 / 64 / 64, 128 + n / 64 / 64 % 64, 128 + n / 64 % 64, 128 + n % 64]
  }

  function Encoded(s: string): seq<int> {
    if s == "" then [] else Encoded(s[..|s| - 1]) + Utf8(s[|s| - 1])
  }

  /** The first octet tells how many belong together. */
  function Width(lead: int): nat {
    if lead < 192 then 1 else if lead < 224 then 2 else if lead < 240 then 3 else 4
  }

  function CodeOf(b: seq<int>): int
    requires b != [] && |b| == Width(b[0])
  {
    if |b| == 1 then b[0]
    else if |b| == 2 then (b[0] - 192) * 64 + b[1] - 128
    else if |b| == 3 then ((b[0] - 224) * 64 + b[1] - 128) * 64 + b[2] - 128
    else (((b[0] - 240) * 64 + b[1] - 128) * 64 + b[2] - 128) * 64 + b[3] - 128
  }

  function Decoded(b: seq<int>): seq<int>
    decreases |b|
  {
    if b == [] then []
    else if |b| < Width(b[0]) then [-1]
    else [CodeOf(b[..Width(b[0])])] + Decoded(b[Width(b[0])..])
  }

  function Codes(s: string): seq<int> {
    if s == "" then [] else [s[0] as int] + Codes(s[1..])
  }

  lemma OneReadsBack(c: char)
    ensures Width(Utf8(c)[0]) == |Utf8(c)| && CodeOf(Utf8(c)) == c as int
    ensures forall b <- Utf8(c) :: 0 <= b < 256
  {
    var n := c as int;
    assert n < 0x11_0000;
    var a := n / 64;
    var b := a / 64;
    assert n == a * 64 + n % 64 && a == b * 64 + a % 64 && b == b / 64 * 64 + b % 64;
  }

  lemma {:induction false} EncodedFront(c: char, s: string)
    ensures Encoded([c] + s) == Utf8(c) + Encoded(s)
  {
    hide Utf8;
    var all := [c] + s;
    if s == "" {
      assert all[..0] == "";
    } else {
      EncodedFront(c, s[..|s| - 1]);
      assert all[..|all| - 1] == [c] + s[..|s| - 1];
    }
  }

  /** The octets of a text read back as its code points. */
  lemma {:induction false} OctetsReadBack(s: string)
    ensures Decoded(Encoded(s)) == Codes(s)
    decreases |s|
  {
    if s != "" {
      var c, rest := s[0], s[1..];
      assert s == [c] + rest;
      EncodedFront(c, rest);
      OneReadsBack(c);
      OctetsReadBack(rest);
      var all := Utf8(c) + Encoded(rest);
      assert all[0] == Utf8(c)[0] && all[..|Utf8(c)|] == Utf8(c) && all[|Utf8(c)|..] == Encoded(rest);
      hide Utf8, CodeOf, Width, Encoded;
    }
  }

  /** The length the calendar folds by is the number of those octets. */
  lemma {:induction false} OctetsAreCounted(s: string)
    ensures Octets(s) == |Encoded(s)|
  {
    if s != "" {
      OctetsAreCounted(s[..|s| - 1]);
    }
  }

  /** So no physical line of a calendar takes more than 75 octets on the wire. */
  lemma LinesFitOnTheWire(lines: seq<string>, i: nat)
    requires Properties(lines) && i < |Lines(Content(lines), "")|
    ensures |Encoded(Lines(Content(lines), "")[i])| <= 75
  {
    PhysicalLinesAreShort(lines);
    OctetsAreCounted(Lines(Content(lines), "")[i]);
    hide Content, Lines, Properties, Octets, Encoded;
  }
}
