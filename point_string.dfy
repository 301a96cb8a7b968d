/**
 * The point-string recognizer the point builders share. `lib/nearest.js` and
 * `lib/transform_point.js` match `^((-?\d+\.?\d+)(,-?\d+\.?\d+)(,[0-9]{4}))`
 * and split the match on commas; `lib/intersect_point.js` matches the
 * anchored `^(-?\d+\.?\d+),(-?\d+\.?\d+),([0-9]{4})$`. Both keep the three
 * pieces as text. `None` is the `null` a failed match returns.
 */
module PointString {
  import opened Wrappers
  import opened Strings

  datatype Point = Point(x: string, y: string, srid: string)

  /** The text after a leading minus sign, if there is one. */
  function WithoutMinus(t: string): string {
    if |t| > 0 && t[0] == '-' then t[1..] else t
  }

  /**
   * The strings `-?\d+\.?\d+` matches in full: an optional minus, then either
   * two or more digits, or digits, a dot and digits (at least one each side).
   */
  predicate IsNumber(t: string) {
    var u := WithoutMinus(t);
    (|u| >= 2 && AllDigits(u)) ||
    exists k :: 0 < k < |u| - 1 && u[k] == '.' && AllDigits(u[..k]) && AllDigits(u[k + 1..])
  }

  /** `[0-9]{4}` */
  predicate IsSrid(d: string) {
    |d| == 4 && AllDigits(d)
  }

  /** The text `x,y,srid` a point is read from. */
  function PointText(p: Point): string {
    p.x + "," + p.y + "," + p.srid
  }

  lemma NumberHasNoComma(t: string)
    requires IsNumber(t)
    ensures ',' !in t
  {
    var u := WithoutMinus(t);
    forall i | 0 <= i < |u|
      ensures u[i] != ','
    {
      if !(|u| >= 2 && AllDigits(u)) {
        var k :| 0 < k < |u| - 1 && u[k] == '.' && AllDigits(u[..k]) && AllDigits(u[k + 1..]);
        if i < k {
          assert u[i] == u[..k][i];
        } else if i > k {
          assert u[i] == u[k + 1..][i - k - 1];
        }
      }
    }
    forall i | 0 <= i < |t|
      ensures t[i] != ','
    {
      if |t| > 0 && t[0] == '-' && i > 0 {
        assert t[i] == u[i - 1];
      }
    }
  }

  /** The text before the first comma, between the first two commas, and after the second. */
  function Pieces(s: string): (r: Option<(string, string, string)>)
    ensures r.Some? ==> ',' !in r.value.0 && ',' !in r.value.1
    ensures r.Some? ==> s == r.value.0 + "," + r.value.1 + "," + r.value.2
  {
    match IndexOf(s, ',')
    case None => None
    case Some(i) =>
      var rest := s[i + 1..];
      SplitAt(s, i);
      match IndexOf(rest, ',')
      case None => None
      case Some(j) =>
        SplitAt(rest, j);
        JoinThree(s, s[..i], rest, rest[..j], rest[j + 1..]);
        Some((s[..i], rest[..j], rest[j + 1..]))
  }

  /** A string is what precedes its character at `i`, that character, and what follows. */
  lemma SplitAt(s: string, i: nat)
    requires i < |s|
    ensures s == s[..i] + [s[i]] + s[i + 1..]
  {
  }

  lemma JoinThree(s: string, x: string, rest: string, y: string, t: string)
    requires s == x + [','] + rest && rest == y + [','] + t
    ensures s == x + "," + y + "," + t
  {
    assert [','] == ",";
  }

  lemma PiecesOf(x: string, y: string, tail: string)
    requires ',' !in x && ',' !in y
    ensures Pieces(x + "," + y + "," + tail) == Some((x, y, tail))
  {
    var s := x + "," + y + "," + tail;
    var rest := y + "," + tail;
    assert s == x + [','] + rest;
    IndexOfAfter(x, ',', rest);
    assert s[..|x|] == x;
    assert s[|x| + 1..] == rest;
    assert rest == y + [','] + tail;
    IndexOfAfter(y, ',', tail);
    assert rest[..|y|] == y;
    assert rest[|y| + 1..] == tail;
  }

  /** The prefix variant (nearest, transform_point): anything after the four srid digits is ignored. */
  function ParsePrefix(s: string): (r: Option<Point>)
    ensures r.Some? ==> IsNumber(r.value.x) && IsNumber(r.value.y) && IsSrid(r.value.srid)
    ensures r.Some? ==> PointText(r.value) <= s
  {
    match Pieces(s)
    case None => None
    case Some((x, y, tail)) =>
      if IsNumber(x) && IsNumber(y) && |tail| >= 4 && AllDigits(tail[..4]) then
        SridPrefix(s, x, y, tail);
        Some(Point(x, y, tail[..4]))
      else None
  }

  /** Keeping the first four characters after the second comma keeps a prefix of the text. */
  lemma SridPrefix(s: string, x: string, y: string, tail: string)
    requires s == x + "," + y + "," + tail && |tail| >= 4
    ensures x + "," + y + "," + tail[..4] <= s
  {
    var h := x + "," + y + ",";
    assert s == h + tail;
    assert h + tail[..4] == s[..|h| + 4];
  }

  /** A text that starts with a point's text is that text followed by the rest. */
  lemma PointSplit(s: string, p: Point)
    requires PointText(p) <= s
    ensures s == p.x + "," + p.y + "," + (p.srid + s[|PointText(p)|..])
  {
    var t := PointText(p);
    assert s == t + s[|t|..];
  }

  /** The anchored variant (intersect_point): the string must end after the four srid digits. */
  function ParseAnchored(s: string): (r: Option<Point>)
    ensures r.Some? ==> IsNumber(r.value.x) && IsNumber(r.value.y) && IsSrid(r.value.srid)
    ensures r.Some? ==> s == PointText(r.value)
  {
    match Pieces(s)
    case None => None
    case Some((x, y, tail)) =>
      if IsNumber(x) && IsNumber(y) && IsSrid(tail) then Some(Point(x, y, tail)) else None
  }

  /**
   * The prefix parse succeeds with `p` exactly when `s` starts with
   * `<num>,<num>,dddd` spelling `p`.
   */
  lemma ParsePrefixExact(s: string, p: Point)
    ensures ParsePrefix(s) == Some(p) <==>
            IsNumber(p.x) && IsNumber(p.y) && IsSrid(p.srid) && PointText(p) <= s
  {
    if IsNumber(p.x) && IsNumber(p.y) && IsSrid(p.srid) && PointText(p) <= s {
      var rest := s[|PointText(p)|..];
      PointSplit(s, p);
      NumberHasNoComma(p.x);
      NumberHasNoComma(p.y);
      PiecesOf(p.x, p.y, p.srid + rest);
      assert (p.srid + rest)[..4] == p.srid;
      PrefixOfPieces(s, p.x, p.y, p.srid + rest);
    }
  }

  /** The anchored parse succeeds with `p` exactly when `s` is `<num>,<num>,dddd` spelling `p`. */
  lemma ParseAnchoredExact(s: string, p: Point)
    ensures ParseAnchored(s) == Some(p) <==>
            IsNumber(p.x) && IsNumber(p.y) && IsSrid(p.srid) && s == PointText(p)
  {
    if IsNumber(p.x) && IsNumber(p.y) && IsSrid(p.srid) && s == PointText(p) {
      NumberHasNoComma(p.x);
      NumberHasNoComma(p.y);
      PiecesOf(p.x, p.y, p.srid);
    }
  }

  /** Whatever the anchored parse accepts, the prefix parse accepts with the same pieces. */
  lemma AnchoredImpliesPrefix(s: string)
    ensures ParseAnchored(s).Some? ==> ParsePrefix(s) == ParseAnchored(s)
    ensures ParsePrefix(s).Some? && |s| == |PointText(ParsePrefix(s).value)| ==>
            ParseAnchored(s) == ParsePrefix(s)
  {
    if ParseAnchored(s).Some? {
      ParsePrefixExact(s, ParseAnchored(s).value);
    }
    if ParsePrefix(s).Some? {
      var p := ParsePrefix(s).value;
      if |s| == |PointText(p)| {
        assert s == PointText(p);
        ParseAnchoredExact(s, p);
      }
    }
  }

  /** Text after the four srid digits: the prefix parse ignores it, the anchored parse rejects it. */
  lemma TrailingText(p: Point, rest: string)
    requires IsNumber(p.x) && IsNumber(p.y) && IsSrid(p.srid) && rest != ""
    ensures ParsePrefix(PointText(p) + rest) == Some(p)
    ensures ParseAnchored(PointText(p) + rest) == None
  {
    ParsePrefixExact(PointText(p) + rest, p);
  }

  /** Digits, a dot and digits, without a sign, form a number token. */
  lemma DecimalNumber(a: string, b: string)
    requires a != [] && b != [] && AllDigits(a) && AllDigits(b)
    ensures IsNumber(a + "." + b)
  {
    var t := a + "." + b;
    var k := |a|;
    assert t[0] != '-';
    assert t[k] == '.' && t[..k] == a && t[k + 1..] == b;
  }

  /** The example of a fifth srid digit: `12.5,3.4,43267`. */
  lemma FifthSridDigit(s: string)
    requires s == "12.5,3.4,43267"
    ensures ParsePrefix(s) == Some(Point("12.5", "3.4", "4326"))
    ensures ParseAnchored(s) == None
  {
    FifthSridPieces(s);
    FifthSridParsed(s);
  }

  lemma FifthSridParsed(s: string)
    requires Pieces(s) == Some(("12.5", "3.4", "43267"))
    ensures ParsePrefix(s) == Some(Point("12.5", "3.4", "4326"))
    ensures ParseAnchored(s) == None
  {
    ShortNumbers();
    FifthSridTail();
    PrefixOfPieces(s, "12.5", "3.4", "43267");
    AnchoredOfPieces(s, "12.5", "3.4", "43267");
  }

  lemma FifthSridTail()
    ensures |"43267"| == 5 && "43267"[..4] == "4326" && AllDigits("4326")
  {
  }

  lemma FifthSridPieces(s: string)
    requires s == "12.5,3.4,43267"
    ensures Pieces(s) == Some(("12.5", "3.4", "43267"))
  {
    assert s == "12.5" + "," + "3.4" + "," + "43267";
    PiecesOf("12.5", "3.4", "43267");
  }

  lemma ShortNumbers()
    ensures IsNumber("12.5") && IsNumber("3.4")
  {
    assert AllDigits("12") && AllDigits("5") && AllDigits("3") && AllDigits("4");
    assert "12" + "." + "5" == "12.5";
    assert "3" + "." + "4" == "3.4";
    DecimalNumber("12", "5");
    DecimalNumber("3", "4");
  }

  lemma PrefixOfPieces(s: string, x: string, y: string, tail: string)
    requires Pieces(s) == Some((x, y, tail)) && IsNumber(x) && IsNumber(y) && |tail| >= 4 && AllDigits(tail[..4])
    ensures ParsePrefix(s) == Some(Point(x, y, tail[..4]))
  {
  }

  lemma AnchoredOfPieces(s: string, x: string, y: string, tail: string)
    requires Pieces(s) == Some((x, y, tail)) && |tail| != 4
    ensures ParseAnchored(s) == None
  {
  }

  /** A coordinate of fewer than two digits (such as `5` in `5,6,4326`) is not a number token. */
  lemma ShortCoordinateRejected(x: string, y: string, tail: string)
    requires ',' !in x && ',' !in y
    requires |WithoutMinus(x)| < 2 || |WithoutMinus(y)| < 2
    ensures ParsePrefix(x + "," + y + "," + tail) == None
    ensures ParseAnchored(x + "," + y + "," + tail) == None
  {
    PiecesOf(x, y, tail);
  }

  /** Fewer than four digits after the second comma is not a srid. */
  lemma ShortSridRejected(x: string, y: string, tail: string)
    requires ',' !in x && ',' !in y
    requires |tail| < 4
    ensures ParsePrefix(x + "," + y + "," + tail) == None
    ensures ParseAnchored(x + "," + y + "," + tail) == None
  {
    PiecesOf(x, y, tail);
  }

  /** A coordinate that starts with a letter (such as `invalid,point,format`) is rejected. */
  lemma LetterRejected(x: string, y: string, tail: string)
    requires ',' !in x && ',' !in y
    requires |x| > 0 && x[0] != '-' && !IsDigit(x[0])
    ensures ParsePrefix(x + "," + y + "," + tail) == None
    ensures ParseAnchored(x + "," + y + "," + tail) == None
  {
    PiecesOf(x, y, tail);
    assert forall k :: 0 < k <= |x| ==> !AllDigits(x[..k]) by {
      forall k | 0 < k <= |x|
        ensures !AllDigits(x[..k])
      {
        assert x[..k][0] == x[0];
      }
    }
  }

  /** The point the facade tests use, `73.70534,14.94202,4326`. */
  lemma SamplePoint(x: string, y: string, d: string)
    requires x == "73.70534" && y == "14.94202" && d == "4326"
    ensures ParsePrefix(x + "," + y + "," + d) == Some(Point(x, y, d))
    ensures ParseAnchored(x + "," + y + "," + d) == Some(Point(x, y, d))
  {
    SamplePieces(x, y, d);
    SampleNumbers();
    SampleSrid(d);
    WellFormedPieces(x + "," + y + "," + d, x, y, d);
  }

  lemma SamplePieces(x: string, y: string, d: string)
    requires x == "73.70534" && y == "14.94202"
    ensures Pieces(x + "," + y + "," + d) == Some((x, y, d))
  {
    assert ',' !in x && ',' !in y;
    PiecesOf(x, y, d);
  }

  lemma SampleSrid(d: string)
    requires d == "4326"
    ensures IsSrid(d)
  {
  }

  lemma WellFormedPieces(s: string, x: string, y: string, d: string)
    requires Pieces(s) == Some((x, y, d)) && IsNumber(x) && IsNumber(y) && IsSrid(d)
    ensures ParsePrefix(s) == Some(Point(x, y, d)) && ParseAnchored(s) == Some(Point(x, y, d))
  {
    assert d[..4] == d;
  }

  lemma SampleNumbers()
    ensures IsNumber("73.70534") && IsNumber("14.94202")
  {
    assert AllDigits("73") && AllDigits("70534") && AllDigits("14") && AllDigits("94202");
    assert "73" + "." + "70534" == "73.70534";
    assert "14" + "." + "94202" == "14.94202";
    DecimalNumber("73", "70534");
    DecimalNumber("14", "94202");
  }

}
