/**
 * The bounds filter geojson and geobuf share: the bounds string is split on
 * commas, every token is coerced with `Number`, and the list's length picks
 * the envelope the features must overlap (four numbers: a box in EPSG:4326,
 * three numbers: a `z,x,y` tile). The `WHERE` and `AND` keywords depend only
 * on whether a filter and a bounds string were given, not on that length.
 */
module Bounds {
  import opened Wrappers
  import opened Strings
  import opened Js
  import opened Numerals
  import opened SqlText

  function CommaCount(s: string): nat {
    if s == [] then 0 else (if s[0] == ',' then 1 else 0) + CommaCount(s[1..])
  }

  lemma {:induction false} CommaCountAppend(a: string, b: string)
    ensures CommaCount(a + b) == CommaCount(a) + CommaCount(b)
  {
    if a == [] {
      assert a + b == b;
    } else {
      assert (a + b)[1..] == a[1..] + b;
      CommaCountAppend(a[1..], b);
    }
  }

  lemma {:induction false} CommaCountNone(a: string)
    requires ',' !in a
    ensures CommaCount(a) == 0
  {
    if a != [] {
      assert a[0] != ',';
      assert forall c :: c in a[1..] ==> c in a;
      CommaCountNone(a[1..]);
    }
  }

  /** `parts.join()`: the parts with a comma between neighbours. */
  function Join(parts: seq<string>): string {
    if parts == [] then "" else if |parts| == 1 then parts[0] else parts[0] + "," + Join(parts[1..])
  }

  /** `s.split(',')`: the comma-free pieces of `s`, which joined back give `s`. */
  function Split(s: string): (parts: seq<string>)
    ensures |parts| >= 1
    ensures forall i :: 0 <= i < |parts| ==> ',' !in parts[i]
    ensures Join(parts) == s
    decreases |s|
  {
    match IndexOf(s, ',')
    case None => [s]
    case Some(i) =>
      var rest := Split(s[i + 1..]);
      assert s == s[..i] + "," + s[i + 1..];
      assert ([s[..i]] + rest)[1..] == rest;
      [s[..i]] + rest
  }

  /** A string with `n` commas splits into `n + 1` tokens. */
  lemma {:induction false} SplitCount(s: string)
    ensures |Split(s)| == CommaCount(s) + 1
    decreases |s|
  {
    match IndexOf(s, ',')
    case None =>
      CommaCountNone(s);
    case Some(i) =>
      assert s == s[..i] + ([','] + s[i + 1..]);
      CommaCountAppend(s[..i], [','] + s[i + 1..]);
      CommaCountNone(s[..i]);
      assert ([','] + s[i + 1..])[1..] == s[i + 1..];
      SplitCount(s[i + 1..]);
  }

  /** Joining comma-free tokens and splitting again gives the tokens back. */
  lemma {:induction false} SplitOfJoin(parts: seq<string>)
    requires |parts| >= 1 && forall i :: 0 <= i < |parts| ==> ',' !in parts[i]
    ensures Split(Join(parts)) == parts
  {
    if |parts| == 1 {
      assert IndexOf(parts[0], ',') == None;
    } else {
      var rest := Join(parts[1..]);
      assert Join(parts) == parts[0] + [','] + rest;
      IndexOfAfter(parts[0], ',', rest);
      var s := Join(parts);
      assert s[..|parts[0]|] == parts[0];
      assert s[|parts[0]| + 1..] == rest;
      SplitOfJoin(parts[1..]);
    }
  }

  /** `.map(Number)` followed by the printing `.join()` applies to each element. */
  function Coerce(parts: seq<string>): (r: seq<string>)
    ensures |r| == |parts|
    ensures forall i :: 0 <= i < |parts| ==> r[i] == Numeral(parts[i])
  {
    if parts == [] then [] else [Numeral(parts[0])] + Coerce(parts[1..])
  }

  /** `bounds_value`: `null`, or the list of numbers the bounds string holds. */
  datatype BoundsValue = NoBounds | Numbers(values: seq<string>)

  /**
   * `bounds ? bounds.split(',').map(Number) : null`. A truthy bounds value
   * that is not a string has no `split` method: the runtime raises a TypeError.
   */
  function ParseBounds(bounds: Value): (r: Result<BoundsValue, Error>)
    ensures r.Failure? <==> Truthy(bounds) && !bounds.Str?
    ensures r.Failure? ==> r.error == TypeError(NotAString("bounds"))
    ensures r.Success? ==> (r.value.NoBounds? <==> !Truthy(bounds))
  {
    if !Truthy(bounds) then Success(NoBounds)
    else if bounds.Str? then Success(Numbers(Coerce(Split(bounds.s))))
    else Failure(TypeError(NotAString("bounds")))
  }

  /** The list of a bounds string with `n` commas holds `n + 1` numbers, one per token, in order. */
  lemma BoundsCount(s: string)
    requires s != ""
    ensures ParseBounds(Str(s)).Success? && ParseBounds(Str(s)).value.Numbers?
    ensures |ParseBounds(Str(s)).value.values| == CommaCount(s) + 1
    ensures forall i :: 0 <= i < CommaCount(s) + 1 ==>
              ParseBounds(Str(s)).value.values[i] == Numeral(Split(s)[i])
  {
    SplitCount(s);
  }

  function IntegerTexts(ns: seq<int>): (r: seq<string>)
    ensures |r| == |ns| && forall i :: 0 <= i < |ns| ==> r[i] == IntToString(ns[i])
  {
    if ns == [] then [] else [IntToString(ns[0])] + IntegerTexts(ns[1..])
  }

  lemma IntegerTextsHaveNoComma(ns: seq<int>)
    ensures forall i :: 0 <= i < |ns| ==> ',' !in IntegerTexts(ns)[i]
  {
    forall i | 0 <= i < |ns|
      ensures ',' !in IntegerTexts(ns)[i]
    {
      var s := IntToString(ns[i]);
      var m: nat := if ns[i] < 0 then -ns[i] else ns[i];
      assert s == if ns[i] < 0 then "-" + NatToString(m) else NatToString(m);
      var d := NatToString(m);
      assert forall j :: 0 <= j < |s| ==> s[j] != ',' by {
        forall j | 0 <= j < |s| ensures s[j] != ',' {
          if ns[i] < 0 && j > 0 {
            assert s[j] == d[j - 1];
          }
        }
      }
    }
  }

  /** Printing a list of integers and coercing each text with `Number` changes nothing. */
  lemma CoerceIntegers(ns: seq<int>)
    ensures Coerce(IntegerTexts(ns)) == IntegerTexts(ns)
  {
    var texts := IntegerTexts(ns);
    var c := Coerce(texts);
    forall i | 0 <= i < |ns|
      ensures c[i] == texts[i]
    {
      NumeralOfInteger(ns[i]);
    }
  }

  /**
   * Bounds written as integers, such as `-180,-90,180,90` or `3,4,2`, reach
   * the query exactly as written.
   */
  lemma BoundsOfIntegers(ns: seq<int>)
    requires |ns| >= 1
    ensures Join(IntegerTexts(ns)) != ""
    ensures ParseBounds(Str(Join(IntegerTexts(ns)))) == Success(Numbers(IntegerTexts(ns)))
  {
    var texts := IntegerTexts(ns);
    var b := Join(texts);
    assert b != "" by {
      assert |texts[0]| >= 1;
      if |ns| > 1 {
        assert b == texts[0] + "," + Join(texts[1..]);
      }
    }
    IntegerTextsHaveNoComma(ns);
    SplitOfJoin(texts);
    assert Split(b) == texts;
    var r := ParseBounds(Str(b));
    assert Truthy(Str(b));
    assert r == Success(Numbers(Coerce(Split(Str(b).s))));
    CoerceIntegers(ns);
    assert Coerce(Split(b)) == texts;
  }

  /** The characters a splice of joined numbers can contain. */
  predicate IsListText(s: string) {
    forall i :: 0 <= i < |s| ==> IsNumeralChar(s[i]) || s[i] == ','
  }

  lemma {:induction false} JoinOfNumerals(parts: seq<string>)
    requires forall i :: 0 <= i < |parts| ==> IsNumeralText(parts[i])
    ensures IsListText(Join(parts))
  {
    if |parts| > 1 {
      JoinOfNumerals(parts[1..]);
      var a := parts[0];
      var rest := Join(parts[1..]);
      var s := Join(parts);
      assert s == a + "," + rest;
      forall i | 0 <= i < |s|
        ensures IsNumeralChar(s[i]) || s[i] == ','
      {
        if i < |a| {
          assert s[i] == a[i];
        } else if i > |a| {
          assert s[i] == rest[i - |a| - 1];
        }
      }
    }
  }

  /**
   * Whatever the bounds string, the text spliced into the envelope is made
   * of printed numbers and commas: the bounds parameter, unlike the filter,
   * cannot carry SQL into the query.
   */
  lemma BoundsAreNumbers(bounds: Value)
    requires ParseBounds(bounds).Success? && ParseBounds(bounds).value.Numbers?
    ensures IsListText(Join(ParseBounds(bounds).value.values))
  {
    var vs := ParseBounds(bounds).value.values;
    forall i | 0 <= i < |vs|
      ensures IsNumeralText(vs[i])
    {
      NumeralAlphabet(Split(bounds.s)[i]);
    }
    JoinOfNumerals(vs);
  }

  /** The text spliced into an envelope: the numbers, joined with commas. */
  function Corners(b: BoundsValue): Value
    requires b.Numbers?
  {
    Str(Join(b.values))
  }

  /** The two envelope predicates, `<geom> && ST_Transform(<envelope>, srid)`. */
  function Envelope(geom: Value, b: BoundsValue): Query {
    if b.Numbers? && |b.values| == 4 then
      [Kw(Gap), Arg(geom), Kw(BoxOpen), Arg(Corners(b)), Kw(BoxClose)]
    else if b.Numbers? && |b.values| == 3 then
      [Kw(Gap), Arg(geom), Kw(TileEnvelopeOpen), Arg(Corners(b)), Kw(TileEnvelopeClose)]
    else []
  }

  /** The shared tail: `WHERE`, the filter, `AND`, the envelope, each under its own condition. */
  function Restriction(filter: Value, geom: Value, b: BoundsValue): Query {
    Flag(WhereWord, Truthy(filter) || b.Numbers?) +
    (Clause(Gap, filter) +
    (Flag(AndWord, Truthy(filter) && b.Numbers?) +
     Envelope(geom, b)))
  }

  /**
   * The restriction interpolates the filter when it is truthy, then, for an
   * envelope, the geometry column and the joined numbers.
   */
  lemma RestrictionParams(filter: Value, geom: Value, b: BoundsValue)
    ensures Params(Restriction(filter, geom, b)) ==
            Present(filter) + (if b.Numbers? && (|b.values| == 3 || |b.values| == 4) then [geom, Corners(b)] else [])
  {
    var w := Flag(WhereWord, Truthy(filter) || b.Numbers?);
    var f := Clause(Gap, filter);
    var a := Flag(AndWord, Truthy(filter) && b.Numbers?);
    var e := Envelope(geom, b);
    RenderAppend(a, e, Parameters);
    RenderAppend(f, a + e, Parameters);
    RenderAppend(w, f + (a + e), Parameters);
    ClauseParams(Gap, filter);
    FlagParams(WhereWord, Truthy(filter) || b.Numbers?);
    FlagParams(AndWord, Truthy(filter) && b.Numbers?);
    EnvelopeParams(geom, b);
  }

  lemma EnvelopeParams(geom: Value, b: BoundsValue)
    ensures Params(Envelope(geom, b)) ==
            if b.Numbers? && (|b.values| == 3 || |b.values| == 4) then [geom, Corners(b)] else []
  {
    var e := Envelope(geom, b);
    if |e| == 5 {
      assert e == [e[0], e[1], e[2], e[3], e[4]];
      RenderFive(e[0], e[1], e[2], e[3], e[4], Parameters);
    }
  }

  /** Which pieces each part of the restriction contributes. */
  lemma RestrictionPieces(k: Word, filter: Value, geom: Value, b: BoundsValue)
    ensures Kw(k) in Restriction(filter, geom, b) <==>
            (k == WhereWord && (Truthy(filter) || b.Numbers?)) ||
            (k == Gap && (Truthy(filter) || (b.Numbers? && (|b.values| == 3 || |b.values| == 4)))) ||
            (k == AndWord && Truthy(filter) && b.Numbers?) ||
            ((k == BoxOpen || k == BoxClose) && b.Numbers? && |b.values| == 4) ||
            ((k == TileEnvelopeOpen || k == TileEnvelopeClose) && b.Numbers? && |b.values| == 3)
  {
    InFlag(k, WhereWord, Truthy(filter) || b.Numbers?);
    InClause(k, Gap, filter);
    InFlag(k, AndWord, Truthy(filter) && b.Numbers?);
    var e := Envelope(geom, b);
    if |e| == 5 {
      assert Kw(k) in e <==> Kw(k) == e[0] || Kw(k) == e[2] || Kw(k) == e[4];
    }
  }

  /** `WHERE` appears iff a filter or bounds are given. */
  lemma HasWhere(filter: Value, geom: Value, b: BoundsValue)
    ensures Kw(WhereWord) in Restriction(filter, geom, b) <==> Truthy(filter) || b.Numbers?
  {
    RestrictionPieces(WhereWord, filter, geom, b);
  }

  /** `AND` appears iff both a filter and bounds are given. */
  lemma HasAnd(filter: Value, geom: Value, b: BoundsValue)
    ensures Kw(AndWord) in Restriction(filter, geom, b) <==> Truthy(filter) && b.Numbers?
  {
    RestrictionPieces(AndWord, filter, geom, b);
  }

  /** A box iff there are four numbers, a tile iff there are three: never both. */
  lemma EnvelopeKinds(filter: Value, geom: Value, b: BoundsValue)
    ensures Kw(BoxOpen) in Restriction(filter, geom, b) <==> b.Numbers? && |b.values| == 4
    ensures Kw(TileEnvelopeOpen) in Restriction(filter, geom, b) <==> b.Numbers? && |b.values| == 3
    ensures !(Kw(BoxOpen) in Restriction(filter, geom, b) && Kw(TileEnvelopeOpen) in Restriction(filter, geom, b))
  {
    RestrictionPieces(BoxOpen, filter, geom, b);
    RestrictionPieces(TileEnvelopeOpen, filter, geom, b);
  }

  /** With a filter the restriction opens with `WHERE <filter>`, then `AND` when bounds are given. */
  lemma FilterFirst(filter: Value, geom: Value, b: BoundsValue)
    requires Truthy(filter)
    ensures var r := Restriction(filter, geom, b);
            |r| >= 3 && r[..3] == [Kw(WhereWord), Kw(Gap), Arg(filter)] &&
            (b.Numbers? <==> |r| >= 4 && r[3] == Kw(AndWord))
  {
  }

  /** Four numbers end the restriction with `<geom> && ST_Transform( ST_MakeEnvelope(<numbers>, 4326), srid )`. */
  lemma EndsWithBox(filter: Value, geom: Value, b: BoundsValue)
    requires b.Numbers? && |b.values| == 4
    ensures var r := Restriction(filter, geom, b);
            |r| >= 5 && r[|r| - 5..] == [Kw(Gap), Arg(geom), Kw(BoxOpen), Arg(Corners(b)), Kw(BoxClose)]
  {
    var x := Flag(WhereWord, true) + (Clause(Gap, filter) + Flag(AndWord, Truthy(filter)));
    assert Restriction(filter, geom, b) == x + Envelope(geom, b);
  }

  /** Three numbers end the restriction with `<geom> && ST_Transform( ST_TileEnvelope(<numbers>), srid )`. */
  lemma EndsWithTile(filter: Value, geom: Value, b: BoundsValue)
    requires b.Numbers? && |b.values| == 3
    ensures var r := Restriction(filter, geom, b);
            |r| >= 5 && r[|r| - 5..] == [Kw(Gap), Arg(geom), Kw(TileEnvelopeOpen), Arg(Corners(b)), Kw(TileEnvelopeClose)]
  {
    var x := Flag(WhereWord, true) + (Clause(Gap, filter) + Flag(AndWord, Truthy(filter)));
    assert Restriction(filter, geom, b) == x + Envelope(geom, b);
  }

  /**
   * Bounds whose count is neither 3 nor 4 produce no predicate, yet the
   * `WHERE` (and with a filter the `AND`) is still written: the clause ends
   * in a dangling keyword.
   */
  lemma DanglingKeyword<T>(filter: Value, geom: Value, b: BoundsValue, sp: Spelling<T>)
    requires b.Numbers? && |b.values| != 3 && |b.values| != 4
    ensures Render(Restriction(filter, geom, b), sp) ==
            if Truthy(filter) then sp.word(WhereWord) + (sp.word(Gap) + (sp.value(filter) + sp.word(AndWord)))
            else sp.word(WhereWord)
  {
    if Truthy(filter) {
      var q := [Kw(WhereWord), Kw(Gap), Arg(filter), Kw(AndWord)];
      assert Restriction(filter, geom, b) == q;
      RenderFour(q[0], q[1], q[2], q[3], sp);
    } else {
      assert Restriction(filter, geom, b) == [Kw(WhereWord)];
      RenderCons(Kw(WhereWord), [], sp);
    }
  }

  /** Without filter and bounds there is no restriction at all. */
  lemma NoRestriction(filter: Value, geom: Value)
    requires !Truthy(filter)
    ensures Restriction(filter, geom, NoBounds) == []
  {
  }
}
