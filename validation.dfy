/**
 * middleware/validation.js: `validatePlaceSearch`, the guard chain in front
 * of `/search`. Each check runs only when the ones before it passed, and the
 * first failing check decides the 400 response.
 */
module Validation {
  import opened Wrappers
  import opened JsBuiltins

  /** The query-string parameters `/search` reads; `None` is an absent parameter. */
  datatype SearchQuery = SearchQuery(
    query: Option<string>,
    location: Option<string>,
    radius: Option<string>,
    maxResults: Option<string>)

  /** `next()`, or a 400 response with its message. */
  datatype Verdict = Pass | Reject(message: string)

  const QueryRequired: string := "Query parameter is required"
  const QueryTooLong: string := "Query parameter is too long (max 200 characters)"
  const LocationFormat: string := "Location must be in format: lat,lng (e.g., 37.7749,-122.4194)"
  const RadiusRange: string := "Radius must be a number between 0 and 50000 meters"

  const MaxQueryLength: nat := 200
  const MaxRadius: int := 50000

  /** A string parameter is truthy when present and not empty. */
  predicate Truthy(v: Option<string>) {
    v.Some? && v.value != ""
  }

  // ---------------------------------------------------------------------
  // The location pattern `^-?\d+\.?\d*,-?\d+\.?\d*$`.
  // ---------------------------------------------------------------------

  predicate IsDigit(c: char) {
    '0' <= c <= '9'
  }

  predicate AllDigits(s: string) {
    forall i :: 0 <= i < |s| ==> IsDigit(s[i])
  }

  /** The length of the run of digits `s` starts with. */
  function DigitRun(s: string): (n: nat)
    ensures n <= |s| && AllDigits(s[..n])
    ensures n < |s| ==> !IsDigit(s[n])
  {
    if s == [] || !IsDigit(s[0]) then 0 else 1 + DigitRun(s[1..])
  }

  /** `-?\d+\.?\d*` matching the whole of `s`. The pattern is deterministic:
      an optional minus, the longest run of digits (at least one), then
      either the end or a dot followed only by digits. */
  predicate IsCoordinate(s: string) {
    var t := if |s| > 0 && s[0] == '-' then s[1..] else s;
    var w := DigitRun(t);
    w > 0 && (w == |t| || (t[w] == '.' && AllDigits(t[w + 1..])))
  }

  /** The position of the first comma, or `|s|` when there is none. */
  function FirstComma(s: string): (i: nat)
    ensures i <= |s|
    ensures forall j :: 0 <= j < i ==> s[j] != ','
    ensures i < |s| ==> s[i] == ','
  {
    if s == [] || s[0] == ',' then 0 else 1 + FirstComma(s[1..])
  }

  /** `locationPattern.test(s)`: neither coordinate can hold a comma, so the
      first comma is the separator. */
  predicate IsLocation(s: string) {
    var i := FirstComma(s);
    i < |s| && IsCoordinate(s[..i]) && IsCoordinate(s[i + 1..])
  }

  /** A coordinate as the pattern describes it: sign, integer digits, and an
      optional dot with fraction digits. Without a dot there are no fraction
      digits, since `\d*` would only extend the integer digits. */
  datatype Coordinate = Coordinate(negative: bool, whole: string, point: bool, fraction: string)

  predicate CoordinateOk(c: Coordinate) {
    |c.whole| >= 1 && AllDigits(c.whole) && AllDigits(c.fraction) && (!c.point ==> c.fraction == "")
  }

  /** The digits, dot and fraction digits, without the sign. */
  function UnsignedText(c: Coordinate): string {
    c.whole + (if c.point then "." else "") + c.fraction
  }

  function CoordinateText(c: Coordinate): string {
    (if c.negative then "-" else "") + UnsignedText(c)
  }

  function LocationText(lat: Coordinate, lng: Coordinate): string {
    CoordinateText(lat) + "," + CoordinateText(lng)
  }

  lemma {:induction false} DigitRunOfDigits(z: string, rest: string)
    requires AllDigits(z) && (rest == [] || !IsDigit(rest[0]))
    ensures DigitRun(z + rest) == |z|
  {
    if z != [] {
      assert (z + rest)[1..] == z[1..] + rest;
      DigitRunOfDigits(z[1..], rest);
    } else {
      assert z + rest == rest;
    }
  }

  /** The unsigned part of a well-formed coordinate matches `\d+\.?\d*`. */
  lemma {:induction false} UnsignedMatches(c: Coordinate, t: string)
    requires CoordinateOk(c)
    requires t == UnsignedText(c)
    ensures DigitRun(t) > 0
    ensures DigitRun(t) == |t| || (t[DigitRun(t)] == '.' && AllDigits(t[DigitRun(t) + 1..]))
  {
    var tail := (if c.point then "." else "") + c.fraction;
    assert t == c.whole + tail;
    DigitRunOfDigits(c.whole, tail);
    if c.point {
      assert t[|c.whole|] == '.';
      assert t[|c.whole| + 1..] == c.fraction;
    } else {
      assert t == c.whole;
    }
  }

  /** A well-formed coordinate's text matches. */
  lemma CoordinateTextMatches(c: Coordinate)
    requires CoordinateOk(c)
    ensures IsCoordinate(CoordinateText(c))
  {
    var s := CoordinateText(c);
    var t := UnsignedText(c);
    UnsignedMatches(c, t);
    if c.negative {
      assert s == "-" + t;
      assert s[1..] == t;
    } else {
      assert s == t;
      assert s[0] == c.whole[0];
    }
  }

  /** A well-formed coordinate's text holds no comma. */
  lemma CoordinateTextCommaFree(c: Coordinate)
    requires CoordinateOk(c)
    ensures forall j :: 0 <= j < |CoordinateText(c)| ==> CoordinateText(c)[j] != ','
  {
    var s := CoordinateText(c);
    forall j | 0 <= j < |s| ensures s[j] != ',' {
      var sign := if c.negative then "-" else "";
      var dot := if c.point then "." else "";
      assert s == sign + c.whole + dot + c.fraction;
      if j < |sign| {
      } else if j < |sign| + |c.whole| {
        assert s[j] == c.whole[j - |sign|];
      } else if j < |sign| + |c.whole| + |dot| {
      } else {
        assert s[j] == c.fraction[j - |sign| - |c.whole| - |dot|];
      }
    }
  }

  /** A string matching `\d+\.?\d*` is the text of a well-formed unsigned coordinate. */
  lemma UnsignedParses(t: string, negative: bool) returns (c: Coordinate)
    requires DigitRun(t) > 0
    requires DigitRun(t) == |t| || (t[DigitRun(t)] == '.' && AllDigits(t[DigitRun(t) + 1..]))
    ensures CoordinateOk(c) && c.negative == negative
    ensures UnsignedText(c) == t
  {
    var w := DigitRun(t);
    if w == |t| {
      c := Coordinate(negative, t, false, "");
      assert t[..w] == t;
      assert t + "" + "" == t;
    } else {
      c := Coordinate(negative, t[..w], true, t[w + 1..]);
      assert t == t[..w] + "." + t[w + 1..];
    }
  }

  /** A string the coordinate pattern matches is the text of a well-formed coordinate. */
  lemma CoordinateParses(s: string) returns (c: Coordinate)
    requires IsCoordinate(s)
    ensures CoordinateOk(c) && CoordinateText(c) == s
  {
    var negative := |s| > 0 && s[0] == '-';
    var t := if negative then s[1..] else s;
    c := UnsignedParses(t, negative);
    if negative {
      assert s == "-" + t;
    } else {
      assert CoordinateText(c) == "" + t == t;
    }
  }

  lemma LocationTextMatches(lat: Coordinate, lng: Coordinate)
    requires CoordinateOk(lat) && CoordinateOk(lng)
    ensures IsLocation(LocationText(lat, lng))
  {
    var a, b := CoordinateText(lat), CoordinateText(lng);
    var s := LocationText(lat, lng);
    CoordinateTextMatches(lat);
    CoordinateTextMatches(lng);
    CoordinateTextCommaFree(lat);
    assert FirstComma(s) == |a| by {
      forall j | 0 <= j < |a| ensures s[j] != ',' {
        assert s[j] == a[j];
      }
      FirstCommaAt(s, |a|);
    }
    assert s[..|a|] == a;
    assert s[|a| + 1..] == b;
  }

  lemma {:induction false} FirstCommaAt(s: string, i: nat)
    requires i < |s| && s[i] == ','
    requires forall j :: 0 <= j < i ==> s[j] != ','
    ensures FirstComma(s) == i
  {
    if i > 0 {
      FirstCommaAt(s[1..], i - 1);
    }
  }

  /** The location check accepts exactly the texts `lat,lng` of two
      well-formed coordinates. */
  lemma LocationGrammar(s: string)
    ensures IsLocation(s) <==> exists lat, lng :: CoordinateOk(lat) && CoordinateOk(lng) && s == LocationText(lat, lng)
  {
    if IsLocation(s) {
      var i := FirstComma(s);
      var lat := CoordinateParses(s[..i]);
      var lng := CoordinateParses(s[i + 1..]);
      assert s == s[..i] + "," + s[i + 1..];
      assert s == LocationText(lat, lng);
    }
    forall lat, lng | CoordinateOk(lat) && CoordinateOk(lng) && s == LocationText(lat, lng)
      ensures IsLocation(s)
    {
      LocationTextMatches(lat, lng);
    }
  }

  // ---------------------------------------------------------------------
  // The radius check and the chain.
  // ---------------------------------------------------------------------

  /** `parseInt(radius)` is a number in `[0, 50000]`. */
  predicate RadiusInRange(radius: string) {
    match ParseInt(radius)
    case None => false
    case Some(n) => 0 <= n <= MaxRadius
  }

  /** Both endpoints are accepted: a radius written as a decimal integer
      passes exactly when it lies in `[0, 50000]`. */
  lemma RadiusDecimal(n: int)
    ensures RadiusInRange(DecimalString(n)) <==> 0 <= n <= MaxRadius
  {
    ParseIntDecimalString(n);
  }

  /** `validatePlaceSearch(req, res, next)`. */
  function ValidatePlaceSearch(q: SearchQuery): (v: Verdict)
    ensures v == Reject(QueryRequired) <==> q.query.None? || AllSpace(q.query.value)
    ensures v == Reject(QueryTooLong)
            <==> q.query.Some? && !AllSpace(q.query.value) && Utf16Length(q.query.value) > MaxQueryLength
    ensures v == Reject(LocationFormat)
            <==> q.query.Some? && !AllSpace(q.query.value) && Utf16Length(q.query.value) <= MaxQueryLength
                 && Truthy(q.location) && !IsLocation(q.location.value)
    ensures v == Reject(RadiusRange)
            <==> q.query.Some? && !AllSpace(q.query.value) && Utf16Length(q.query.value) <= MaxQueryLength
                 && (Truthy(q.location) ==> IsLocation(q.location.value))
                 && Truthy(q.radius) && !RadiusInRange(q.radius.value)
    ensures v == Pass
            <==> q.query.Some? && !AllSpace(q.query.value) && Utf16Length(q.query.value) <= MaxQueryLength
                 && (Truthy(q.location) ==> IsLocation(q.location.value))
                 && (Truthy(q.radius) ==> RadiusInRange(q.radius.value))
  {
    if !Truthy(q.query) || (TrimEmptyIffAllSpace(q.query.value); Trim(q.query.value) == "") then
      Reject(QueryRequired)
    else if Utf16Length(q.query.value) > MaxQueryLength then Reject(QueryTooLong)
    else if Truthy(q.location) && !IsLocation(q.location.value) then Reject(LocationFormat)
    else if Truthy(q.radius) && !RadiusInRange(q.radius.value) then Reject(RadiusRange)
    else Pass
  }
}
