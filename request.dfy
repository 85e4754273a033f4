/**
 * The request serialiser of the execute call (src/app/page.tsx, lines 53-57).
 * The lawn is sent as its inclusive top-right corner "<width-1> <height-1>",
 * the pose as "<x> <y> <letter>", and the command string verbatim.  Numbers
 * are written as JavaScript writes an integer in a template literal: decimal,
 * no leading zeros, a leading '-' when negative.
 *
 * The remote side's parser is not part of this model; the parser here is the
 * reference inverse of the encoding, used to show that the encoding loses no
 * information.
 */
module Request {
  import opened Types

  predicate IsDigit(c: char) { '0' <= c <= '9' }

  predicate AllDigits(s: string)
  {
    forall i :: 0 <= i < |s| ==> IsDigit(s[i])
  }

  function DigitChar(d: nat): (c: char)
    requires d < 10
    ensures IsDigit(c) && c as int - '0' as int == d
  {
    ('0' as int + d) as char
  }

  function DigitValue(c: char): nat
    requires IsDigit(c)
  {
    c as int - '0' as int
  }

  /** A decimal numeral without leading zeros: "0", or digits not starting with '0'. */
  predicate CanonicalNat(s: string)
  {
    |s| >= 1 && AllDigits(s) && (|s| > 1 ==> s[0] != '0')
  }

  /** A canonical numeral, or '-' followed by a canonical numeral other than "0". */
  predicate CanonicalInt(s: string)
  {
    if |s| > 0 && s[0] == '-' then CanonicalNat(s[1..]) && s[1..] != "0"
    else CanonicalNat(s)
  }

  /** Decimal digits of n, most significant first. */
  function NatToString(n: nat): (s: string)
    ensures CanonicalNat(s)
    ensures s[0] == '0' ==> n == 0
    decreases n
  {
    if n < 10 then [DigitChar(n)] else NatToString(n / 10) + [DigitChar(n % 10)]
  }

  /** The JavaScript rendering of an integer number. */
  function IntToString(n: int): (s: string)
    ensures CanonicalInt(s) && ' ' !in s
    ensures s[0] == '-' <==> n < 0
    ensures n >= 0 ==> s == NatToString(n)
    ensures n < 0 ==> s[1..] == NatToString(-n)
  {
    if n < 0 then
      var p := NatToString(-n);
      assert ("-" + p)[1..] == p;
      "-" + p
    else NatToString(n)
  }

  /** The value of a string of decimal digits. */
  function DigitsValue(s: string): nat
    requires AllDigits(s)
  {
    if |s| == 0 then 0 else DigitsValue(s[..|s| - 1]) * 10 + DigitValue(s[|s| - 1])
  }

  function ParseNat(s: string): Option<int>
  {
    if |s| == 0 || !AllDigits(s) then None else Some(DigitsValue(s))
  }

  function ParseInt(s: string): Option<int>
  {
    if |s| > 0 && s[0] == '-' then
      match ParseNat(s[1..])
      case Some(v) => Some(-v)
      case None => None
    else ParseNat(s)
  }

  function ParseDirection(s: string): Option<Direction>
  {
    if s == "N" then Some(N)
    else if s == "E" then Some(E)
    else if s == "S" then Some(S)
    else if s == "W" then Some(W)
    else None
  }

  /** The heading letter reads back as the heading it was written from. */
  lemma DirectionLetterRoundTrip(d: Direction)
    ensures ParseDirection([DirectionLetter(d)]) == Some(d)
  {
  }

  /** Split a string at every space; there is always at least one part. */
  function SplitSpaces(s: string): (parts: seq<string>)
    ensures |parts| >= 1
  {
    if |s| == 0 then [""]
    else
      var rest := SplitSpaces(s[1..]);
      if s[0] == ' ' then [""] + rest else [[s[0]] + rest[0]] + rest[1..]
  }

  /** Join parts with one space between neighbours. */
  function JoinSpaces(parts: seq<string>): string
    requires |parts| >= 1
  {
    if |parts| == 1 then parts[0] else parts[0] + " " + JoinSpaces(parts[1..])
  }

  /** Reads back "<maxX> <maxY>". */
  function ParseCorner(s: string): Option<Point>
  {
    var parts := SplitSpaces(s);
    if |parts| != 2 then None
    else
      match (ParseInt(parts[0]), ParseInt(parts[1]))
      case (Some(mx), Some(my)) => Some(Point(mx, my))
      case _ => None
  }

  /** Reads back "<x> <y> <letter>". */
  function ParsePose(s: string): Option<MowerPosition>
  {
    var parts := SplitSpaces(s);
    if |parts| != 3 then None
    else
      match (ParseInt(parts[0]), ParseInt(parts[1]), ParseDirection(parts[2]))
      case (Some(x), Some(y), Some(d)) => Some(MowerPosition(x, y, d))
      case _ => None
  }

  /** Two space-separated canonical integers. */
  predicate CanonicalLawnField(s: string)
  {
    var parts := SplitSpaces(s);
    |parts| == 2 && CanonicalInt(parts[0]) && CanonicalInt(parts[1])
  }

  /** Three space-separated parts, the first two canonical integers. */
  predicate CanonicalPoseField(s: string)
  {
    var parts := SplitSpaces(s);
    |parts| == 3 && CanonicalInt(parts[0]) && CanonicalInt(parts[1])
  }

  /**
   * The lawn field: the inclusive top-right corner of the lawn.  It reads back
   * as that corner and is written canonically, which by LawnTextUnique makes
   * it the only such text.
   */
  function EncodeLawn(d: LawnDimensions): (s: string)
    ensures ParseCorner(s) == Some(Point(d.width - 1, d.height - 1))
    ensures CanonicalLawnField(s)
  {
    var a, b := IntToString(d.width - 1), IntToString(d.height - 1);
    SplitAtFirstSpace(a, b);
    SplitWithoutSpace(b);
    IntRoundTrip(d.width - 1);
    IntRoundTrip(d.height - 1);
    a + " " + b
  }

  /**
   * The pose field: x, y and the heading letter, separated by one space.  It
   * reads back as the pose and is written canonically (see PoseTextUnique).
   */
  function EncodePose(p: MowerPosition): (s: string)
    ensures ParsePose(s) == Some(p)
    ensures CanonicalPoseField(s)
  {
    var a, b, c := IntToString(p.x), IntToString(p.y), [DirectionLetter(p.direction)];
    SplitAtFirstSpace(a, b + " " + c);
    SplitAtFirstSpace(b, c);
    SplitWithoutSpace(c);
    IntRoundTrip(p.x);
    IntRoundTrip(p.y);
    assert a + " " + (b + " " + c) == a + " " + b + " " + c;
    a + " " + b + " " + c
  }

  /**
   * The request executeMowerCommand sends: the lawn encoded by its top-right
   * corner, the pose, and the commands unchanged; both numeric fields are
   * canonical, so together with LawnTextUnique and PoseTextUnique the exact
   * text on the wire is fixed.
   */
  function BuildRequest(dims: LawnDimensions, pose: MowerPosition, commands: string): (r: MowerCommandRequest)
    ensures r.commands == commands
    ensures ParseCorner(r.lawnDimensions) == Some(Point(dims.width - 1, dims.height - 1))
    ensures CanonicalLawnField(r.lawnDimensions)
    ensures ParsePose(r.mowerPosition) == Some(pose)
    ensures CanonicalPoseField(r.mowerPosition)
  {
    MowerCommandRequest(EncodeLawn(dims), EncodePose(pose), commands)
  }

  lemma {:induction false} NatToStringValue(n: nat)
    ensures DigitsValue(NatToString(n)) == n
    decreases n
  {
    if n >= 10 {
      var p := NatToString(n / 10);
      var s := p + [DigitChar(n % 10)];
      NatToStringValue(n / 10);
      assert s[..|s| - 1] == p;
    }
  }

  lemma IntRoundTrip(n: int)
    ensures ParseInt(IntToString(n)) == Some(n)
  {
    if n < 0 {
      var p := NatToString(-n);
      assert ("-" + p)[1..] == p;
      NatToStringValue(-n);
    } else {
      NatToStringValue(n);
    }
  }

  lemma {:induction false} SplitWithoutSpace(a: string)
    requires ' ' !in a
    ensures SplitSpaces(a) == [a]
    decreases |a|
  {
    if |a| > 0 {
      assert a[0] != ' ';
      SplitWithoutSpace(a[1..]);
      assert [a[0]] + a[1..] == a;
    }
  }

  lemma {:induction false} SplitAtFirstSpace(a: string, b: string)
    requires ' ' !in a
    ensures SplitSpaces(a + " " + b) == [a] + SplitSpaces(b)
    decreases |a|
  {
    var s := a + " " + b;
    if |a| == 0 {
      assert s == " " + b;
      assert s[1..] == b;
    } else {
      assert s[0] == a[0] && a[0] != ' ';
      assert s[1..] == a[1..] + " " + b;
      SplitAtFirstSpace(a[1..], b);
      assert [a[0]] + a[1..] == a;
    }
  }

  /** A numeral without a leading zero has a positive value. */
  lemma {:induction false} DigitsValuePositive(s: string)
    requires |s| >= 1 && AllDigits(s) && s[0] != '0'
    ensures DigitsValue(s) >= 1
    decreases |s|
  {
    if |s| > 1 {
      DigitsValuePositive(s[..|s| - 1]);
    }
  }

  /** A canonical numeral is the one NatToString writes for its value. */
  lemma {:induction false} CanonicalNatUnique(s: string)
    requires CanonicalNat(s)
    ensures NatToString(DigitsValue(s)) == s
    decreases |s|
  {
    if |s| > 1 {
      var p := s[..|s| - 1];
      assert p[0] == s[0];
      CanonicalNatUnique(p);
      DigitsValuePositive(p);
      var v := DigitsValue(s);
      assert v / 10 == DigitsValue(p) && v % 10 == DigitValue(s[|s| - 1]);
      assert p + [s[|s| - 1]] == s;
    }
  }

  /** A canonical integer text is the one IntToString writes for the value it parses to. */
  lemma CanonicalIntUnique(s: string, n: int)
    requires CanonicalInt(s) && ParseInt(s) == Some(n)
    ensures IntToString(n) == s
  {
    if |s| > 0 && s[0] == '-' {
      CanonicalNatUnique(s[1..]);
      assert "-" + s[1..] == s;
    } else {
      CanonicalNatUnique(s);
    }
  }

  /** Splitting at spaces and joining with spaces gives the text back. */
  lemma {:induction false} JoinSplit(s: string)
    ensures JoinSpaces(SplitSpaces(s)) == s
    decreases |s|
  {
    if |s| > 0 {
      var rest := SplitSpaces(s[1..]);
      JoinSplit(s[1..]);
      if s[0] == ' ' {
        assert ([""] + rest)[1..] == rest;
      } else {
        var parts := [[s[0]] + rest[0]] + rest[1..];
        if |rest| > 1 {
          assert parts[1..] == rest[1..];
        }
        assert [s[0]] + s[1..] == s;
      }
    }
  }

  /** The only canonical text that reads back as the corner of d is EncodeLawn(d). */
  lemma LawnTextUnique(s: string, d: LawnDimensions)
    requires CanonicalLawnField(s)
    requires ParseCorner(s) == Some(Point(d.width - 1, d.height - 1))
    ensures s == EncodeLawn(d)
  {
    var parts := SplitSpaces(s);
    CanonicalIntUnique(parts[0], d.width - 1);
    CanonicalIntUnique(parts[1], d.height - 1);
    JoinSplit(s);
    assert parts[1..] == [parts[1]];
  }

  /** The only canonical text that reads back as the pose p is EncodePose(p). */
  lemma PoseTextUnique(s: string, p: MowerPosition)
    requires CanonicalPoseField(s)
    requires ParsePose(s) == Some(p)
    ensures s == EncodePose(p)
  {
    var parts := SplitSpaces(s);
    CanonicalIntUnique(parts[0], p.x);
    CanonicalIntUnique(parts[1], p.y);
    assert parts[2] == [DirectionLetter(p.direction)];
    JoinSplit(s);
    var tail := parts[1..];
    assert tail[1..] == [parts[2]];
    assert JoinSpaces(tail) == parts[1] + " " + parts[2];
  }

  /** Different lawns, poses or commands never produce the same request. */
  lemma BuildRequestInjective(d1: LawnDimensions, p1: MowerPosition, c1: string,
                              d2: LawnDimensions, p2: MowerPosition, c2: string)
    requires d1 != d2 || p1 != p2 || c1 != c2
    ensures BuildRequest(d1, p1, c1) != BuildRequest(d2, p2, c2)
  {
  }

  /** The default session: a 5x5 lawn, pose (1, 2, N), the default sequence. */
  lemma DefaultRequest()
    ensures BuildRequest(LawnDimensions(5, 5), MowerPosition(1, 2, N), "GAGAGAGAA")
         == MowerCommandRequest("4 4", "1 2 N", "GAGAGAGAA")
  {
    assert NatToString(4) == "4";
    assert NatToString(1) == "1";
    assert NatToString(2) == "2";
  }
}
