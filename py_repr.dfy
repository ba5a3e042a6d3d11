/**
 * Python's `repr` of the values the spray message shows: integers, box
 * tuples `(x, y, w, h)` and lists of them. Each writer has a reader, and
 * reading back what was written gives the value and the text after it.
 */
module PyRepr {
  import opened Wrappers
  import opened Defects

  predicate IsDigit(c: char)
  {
    '0' <= c <= '9'
  }

  predicate AllDigits(s: string)
  {
    forall i :: 0 <= i < |s| ==> IsDigit(s[i])
  }

  function DigitChar(d: nat): (c: char)
    requires d < 10
    ensures IsDigit(c) && c as int - '0' as int == d
  {
    ('0' as int + d) as char
  }

  /** The decimal digits of `n`, without leading zeros. */
  function NatRepr(n: nat): (s: string)
    ensures |s| > 0 && AllDigits(s)
    ensures s[0] == '0' ==> n == 0
  {
    if n < 10 then [DigitChar(n)]
    else
      var s := NatRepr(n / 10) + [DigitChar(n % 10)];
      assert s[0] == NatRepr(n / 10)[0];
      s
  }

  /** Python's `repr` of an integer: a minus sign exactly for negative values, then digits without leading zeros. */
  function IntRepr(i: int): (s: string)
    ensures |s| > 0
    ensures s[0] == '-' <==> i < 0
    ensures s[0] == '0' ==> i == 0
    ensures s[0] == '-' ==> |s| > 1 && IsDigit(s[1]) && s[1] != '0'
  {
    if i < 0 then
      var s := "-" + NatRepr(-i);
      assert s[1..] == NatRepr(-i);
      s
    else NatRepr(i)
  }

  /** Python's `repr` of the tuple `(x, y, w, h)`. */
  function BoxRepr(b: Box): (s: string)
    ensures |s| >= 2 && s[0] == '(' && s[|s| - 1] == ')'
  {
    "(" + IntRepr(b.x) + ", " + IntRepr(b.y) + ", " + IntRepr(b.w) + ", " + IntRepr(b.h) + ")"
  }

  /** The tuples of `bs` separated by `", "`, as inside a list's `repr`. */
  function JoinBoxes(bs: seq<Box>): string
  {
    if bs == [] then ""
    else if |bs| == 1 then BoxRepr(bs[0])
    else BoxRepr(bs[0]) + ", " + JoinBoxes(bs[1..])
  }

  /** Python's `repr` of a list of box tuples. */
  function ListRepr(bs: seq<Box>): (s: string)
    ensures |s| >= 2 && s[0] == '[' && s[|s| - 1] == ']'
  {
    "[" + JoinBoxes(bs) + "]"
  }

  /** The value of a string of decimal digits. */
  function DigitsValue(s: string): nat
    requires AllDigits(s)
  {
    if s == [] then 0 else DigitsValue(s[..|s| - 1]) * 10 + (s[|s| - 1] as int - '0' as int)
  }

  /** The longest prefix of `s` made of digits. */
  function LeadingDigits(s: string): (d: string)
    ensures AllDigits(d) && d <= s
  {
    if s == [] || !IsDigit(s[0]) then [] else [s[0]] + LeadingDigits(s[1..])
  }

  /** The text after `lit`, when `s` starts with `lit`. */
  function Expect(s: string, lit: string): (r: Option<string>)
    ensures r.Some? ==> |r.value| + |lit| == |s|
  {
    if |lit| <= |s| && s[..|lit|] == lit then Some(s[|lit|..]) else None
  }

  /** Reads a non-empty run of digits. */
  function ReadDigits(s: string): (r: Option<(nat, string)>)
    ensures r.Some? ==> |r.value.1| < |s|
  {
    var digits := LeadingDigits(s);
    if digits == [] then None else Some((DigitsValue(digits), s[|digits|..]))
  }

  /** Reads an integer written as an optional minus sign and digits. */
  function ReadInt(s: string): (r: Option<(int, string)>)
    ensures r.Some? ==> |r.value.1| < |s|
  {
    if s != [] && s[0] == '-' then
      var p :- ReadDigits(s[1..]);
      Some((-(p.0 as int), p.1))
    else
      var p :- ReadDigits(s);
      Some((p.0 as int, p.1))
  }

  /** Reads an integer followed by the separator `sep`. */
  function ReadField(s: string, sep: string): (r: Option<(int, string)>)
    ensures r.Some? ==> |r.value.1| < |s|
  {
    var p :- ReadInt(s);
    var rest :- Expect(p.1, sep);
    Some((p.0, rest))
  }

  /** Reads a tuple `(x, y, w, h)`. */
  function ReadBox(s: string): (r: Option<(Box, string)>)
    ensures r.Some? ==> |r.value.1| < |s|
  {
    var s0 :- Expect(s, "(");
    var x :- ReadField(s0, ", ");
    var y :- ReadField(x.1, ", ");
    var w :- ReadField(y.1, ", ");
    var h :- ReadField(w.1, ")");
    Some((Box(x.0, y.0, w.0, h.0), h.1))
  }

  /** Reads one or more tuples separated by `", "`, up to and including the closing `]`. */
  function ReadItems(s: string): (r: Option<(seq<Box>, string)>)
    decreases |s|
  {
    var p :- ReadBox(s);
    var t := p.1;
    if |t| >= 1 && t[0] == ']' then Some(([p.0], t[1..]))
    else if |t| >= 2 && t[..2] == ", " then
      var q :- ReadItems(t[2..]);
      Some(([p.0] + q.0, q.1))
    else None
  }

  /** Reads a list of box tuples. */
  function ReadBoxList(s: string): Option<(seq<Box>, string)>
  {
    var s0 :- Expect(s, "[");
    if |s0| >= 1 && s0[0] == ']' then Some(([], s0[1..])) else ReadItems(s0)
  }

  /** A literal at the front is consumed exactly. */
  lemma ExpectLiteral(lit: string, t: string)
    ensures Expect(lit + t, lit) == Some(t)
  {
    assert (lit + t)[..|lit|] == lit;
    assert (lit + t)[|lit|..] == t;
  }

  /** Reading the digits back gives the number rendered. */
  lemma {:induction false} NatReprRoundTrip(n: nat)
    ensures DigitsValue(NatRepr(n)) == n
  {
    var s := NatRepr(n);
    if n >= 10 {
      NatReprRoundTrip(n / 10);
      assert s[..|s| - 1] == NatRepr(n / 10);
    }
  }

  /** Digits followed by anything that does not start with a digit are read as exactly those digits. */
  lemma {:induction false} LeadingDigitsStopAtNonDigit(d: string, rest: string)
    requires AllDigits(d)
    requires rest == [] || !IsDigit(rest[0])
    ensures LeadingDigits(d + rest) == d
  {
    if d == [] {
      assert d + rest == rest;
    } else {
      assert (d + rest)[1..] == d[1..] + rest;
      LeadingDigitsStopAtNonDigit(d[1..], rest);
      assert [d[0]] + d[1..] == d;
    }
  }

  /** A number's digits followed by a non-digit are read back as the number. */
  lemma ReadDigitsRoundTrip(n: nat, rest: string)
    requires rest == [] || !IsDigit(rest[0])
    ensures ReadDigits(NatRepr(n) + rest) == Some((n, rest))
  {
    LeadingDigitsStopAtNonDigit(NatRepr(n), rest);
    NatReprRoundTrip(n);
    assert (NatRepr(n) + rest)[|NatRepr(n)|..] == rest;
  }

  /** Reading an integer's `repr` back gives the integer and leaves what follows it. */
  lemma IntReprRoundTrip(i: int, rest: string)
    requires rest == [] || !IsDigit(rest[0])
    ensures ReadInt(IntRepr(i) + rest) == Some((i, rest))
  {
    var s := IntRepr(i) + rest;
    if i < 0 {
      var body := NatRepr(-i) + rest;
      assert s == "-" + body;
      assert s[1..] == body;
      ReadDigitsRoundTrip(-i, rest);
    } else {
      assert s == NatRepr(i) + rest;
      assert s[0] == NatRepr(i)[0];
      ReadDigitsRoundTrip(i, rest);
    }
  }

  /** An integer's `repr` and its separator are read back as the integer. */
  lemma ReadFieldRoundTrip(i: int, sep: string, rest: string)
    requires sep != [] && !IsDigit(sep[0])
    ensures ReadField(IntRepr(i) + sep + rest, sep) == Some((i, rest))
  {
    assert IntRepr(i) + sep + rest == IntRepr(i) + (sep + rest);
    IntReprRoundTrip(i, sep + rest);
    ExpectLiteral(sep, rest);
  }

  /** Regrouping a concatenation; used to line the writers' output up with the readers. */
  lemma Assoc(a: string, b: string, c: string)
    ensures a + b + c == a + (b + c)
  {
  }

  /** Reading a tuple's `repr` back gives the box and leaves what follows it. */
  lemma BoxReprRoundTrip(b: Box, rest: string)
    ensures ReadBox(BoxRepr(b) + rest) == Some((b, rest))
  {
    var t4 := IntRepr(b.h) + ")" + rest;
    var t3 := IntRepr(b.w) + ", " + t4;
    var t2 := IntRepr(b.y) + ", " + t3;
    var t1 := IntRepr(b.x) + ", " + t2;
    BoxReprShape(b, rest);
    ExpectLiteral("(", t1);
    ReadFieldRoundTrip(b.x, ", ", t2);
    ReadFieldRoundTrip(b.y, ", ", t3);
    ReadFieldRoundTrip(b.w, ", ", t4);
    ReadFieldRoundTrip(b.h, ")", rest);
  }

  /** A tuple's `repr` regrouped as "(" followed by one field after another. */
  lemma BoxReprShape(b: Box, rest: string)
    ensures BoxRepr(b) + rest ==
      "(" + (IntRepr(b.x) + ", " + (IntRepr(b.y) + ", " + (IntRepr(b.w) + ", " + (IntRepr(b.h) + ")" + rest))))
  {
    var x, y, w, h := IntRepr(b.x), IntRepr(b.y), IntRepr(b.w), IntRepr(b.h);
    Assoc("(" + x + ", " + y + ", " + w + ", " + h, ")", rest);
    Assoc("(" + x + ", " + y + ", " + w + ", ", h, ")" + rest);
    Assoc("(" + x + ", " + y + ", " + w, ", ", h + (")" + rest));
    Assoc("(" + x + ", " + y + ", ", w, ", " + (h + (")" + rest)));
    Assoc("(" + x + ", " + y, ", ", w + (", " + (h + (")" + rest))));
    Assoc("(" + x + ", ", y, ", " + (w + (", " + (h + (")" + rest)))));
    Assoc("(" + x, ", ", y + (", " + (w + (", " + (h + (")" + rest))))));
    Assoc("(", x, ", " + (y + (", " + (w + (", " + (h + (")" + rest)))))));
    Assoc(h, ")", rest);
    Assoc(w, ", ", h + ")" + rest);
    Assoc(y, ", ", w + ", " + (h + ")" + rest));
    Assoc(x, ", ", y + ", " + (w + ", " + (h + ")" + rest)));
  }

  /** The last tuple of a list is read together with the closing bracket. */
  lemma ReadLastItem(b: Box, rest: string)
    ensures ReadItems(BoxRepr(b) + "]" + rest) == Some(([b], rest))
  {
    assert BoxRepr(b) + "]" + rest == BoxRepr(b) + ("]" + rest);
    BoxReprRoundTrip(b, "]" + rest);
    assert ("]" + rest)[1..] == rest;
  }

  /** A tuple followed by `", "` is read in front of the tuples that follow it. */
  lemma ReadNextItem(b: Box, more: string, bs: seq<Box>, rest: string)
    requires ReadItems(more) == Some((bs, rest))
    ensures ReadItems(BoxRepr(b) + ", " + more) == Some(([b] + bs, rest))
  {
    var t := ", " + more;
    assert BoxRepr(b) + ", " + more == BoxRepr(b) + t;
    BoxReprRoundTrip(b, t);
    assert t[..2] == ", " && t[2..] == more;
  }

  /** Reading joined tuples and the closing bracket gives the boxes back. */
  lemma {:induction false} JoinBoxesRoundTrip(bs: seq<Box>, rest: string)
    requires bs != []
    ensures ReadItems(JoinBoxes(bs) + "]" + rest) == Some((bs, rest))
  {
    if |bs| == 1 {
      ReadLastItem(bs[0], rest);
      assert [bs[0]] == bs;
    } else {
      var more := JoinBoxes(bs[1..]) + "]" + rest;
      var head, tail := BoxRepr(bs[0]), JoinBoxes(bs[1..]);
      JoinBoxesRoundTrip(bs[1..], rest);
      ReadNextItem(bs[0], more, bs[1..], rest);
      Assoc(head + ", " + tail, "]", rest);
      Assoc(head + ", ", tail, "]" + rest);
      Assoc(tail, "]", rest);
      assert [bs[0]] + bs[1..] == bs;
    }
  }

  /** Reading a list's `repr` back gives exactly the listed boxes, in order, and leaves what follows it. */
  lemma ListReprRoundTrip(bs: seq<Box>, rest: string)
    ensures ReadBoxList(ListRepr(bs) + rest) == Some((bs, rest))
  {
    var inner := JoinBoxes(bs) + "]" + rest;
    Assoc("[" + JoinBoxes(bs), "]", rest);
    Assoc("[", JoinBoxes(bs), "]" + rest);
    Assoc(JoinBoxes(bs), "]", rest);
    ExpectLiteral("[", inner);
    if bs == [] {
      assert JoinBoxes(bs) == "";
      assert inner == "]" + rest;
      assert inner[1..] == rest;
    } else {
      JoinBoxesRoundTrip(bs, rest);
      assert inner[0] == BoxRepr(bs[0])[0] == '(';
    }
  }
}
