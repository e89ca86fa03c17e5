/** The few pieces of Go's `strings` and `strconv` packages the library relies
    on, over Dafny strings. Separators are single characters: every call in the
    library cuts or splits at "=", ":" or "/". */
module Text {
  import opened Results

  /** Index of the first `c` in `s`, or `|s|` when there is none. */
  function IndexOf(s: string, c: char): (i: nat)
    ensures i <= |s|
    ensures i < |s| ==> s[i] == c
    ensures forall j :: 0 <= j < i ==> s[j] != c
  {
    if |s| == 0 then 0
    else if s[0] == c then 0
    else 1 + IndexOf(s[1..], c)
  }

  /** The three results of Go's `strings.Cut`. */
  datatype CutResult = CutResult(before: string, after: string, found: bool)

  /** strings.Cut(s, sep): the text around the FIRST `sep`, or (s, "", false). */
  function Cut(s: string, sep: char): (r: CutResult)
    ensures r.found <==> sep in s
    ensures r.found ==> s == r.before + [sep] + r.after && sep !in r.before
    ensures !r.found ==> r.before == s && r.after == ""
  {
    var i := IndexOf(s, sep);
    if i < |s| then
      assert s == s[..i] + [sep] + s[i + 1..];
      CutResult(s[..i], s[i + 1..], true)
    else
      CutResult(s, "", false)
  }

  /** Joins pieces with `sep` between neighbours (strings.Join). */
  function Join(pieces: seq<string>, sep: char): string
  {
    if |pieces| == 0 then ""
    else if |pieces| == 1 then pieces[0]
    else pieces[0] + [sep] + Join(pieces[1..], sep)
  }

  /** strings.Split(s, sep): the pieces between the separators; never empty. */
  function Split(s: string, sep: char): (pieces: seq<string>)
    ensures |pieces| >= 1
    ensures forall i :: 0 <= i < |pieces| ==> sep !in pieces[i]
    ensures Join(pieces, sep) == s
    decreases |s|
  {
    var c := Cut(s, sep);
    if !c.found then [s]
    else [c.before] + Split(c.after, sep)
  }

  /** Cutting `a + [sep] + b` where `a` has no `sep` gives back `a` and `b`. */
  lemma CutJoined(a: string, b: string, sep: char)
    requires sep !in a
    ensures Cut(a + [sep] + b, sep) == CutResult(a, b, true)
  {
    var s := a + [sep] + b;
    assert s[|a|] == sep;
    assert forall j :: 0 <= j < |a| ==> s[j] == a[j];
    assert IndexOf(s, sep) == |a|;
    assert s[..|a|] == a && s[|a| + 1..] == b;
  }

  /** Splitting undoes joining pieces that do not contain the separator. */
  lemma {:induction false} SplitJoin(pieces: seq<string>, sep: char)
    requires |pieces| >= 1
    requires forall i :: 0 <= i < |pieces| ==> sep !in pieces[i]
    ensures Split(Join(pieces, sep), sep) == pieces
  {
    if |pieces| > 1 {
      var rest := Join(pieces[1..], sep);
      var s := pieces[0] + [sep] + rest;
      CutJoined(pieces[0], rest, sep);
      SplitJoin(pieces[1..], sep);
    } else {
      assert Join(pieces, sep) == pieces[0];
    }
  }

  function DigitChar(d: nat): char
    requires d < 10
  {
    ['0', '1', '2', '3', '4', '5', '6', '7', '8', '9'][d]
  }

  predicate IsDigit(c: char) { '0' <= c <= '9' }

  /** strconv.FormatUint(n, 10): the shortest decimal text of `n`. */
  function Decimal(n: nat): (s: string)
    ensures |s| >= 1
    ensures forall i :: 0 <= i < |s| ==> IsDigit(s[i])
    ensures |s| > 1 ==> s[0] != '0'
  {
    if n < 10 then [DigitChar(n)]
    else Decimal(n / 10) + [DigitChar(n % 10)]
  }

  /** strconv.FormatInt(i, 10): a minus sign before the decimal text of |i|. */
  function SignedDecimal(i: int): string
  {
    if i < 0 then "-" + Decimal(-i) else Decimal(i)
  }

  /** The value of a string of decimal digits. */
  function DigitsValue(s: string): nat
    requires forall i :: 0 <= i < |s| ==> IsDigit(s[i])
  {
    if |s| == 0 then 0
    else
      assert IsDigit(s[|s| - 1]);
      10 * DigitsValue(s[..|s| - 1]) + (s[|s| - 1] as int - '0' as int)
  }

  /** strconv.ParseUint(s, 10, bits) with `max` the largest value of `bits`:
      a non-empty run of decimal digits (leading zeros allowed, no sign, no
      underscores) whose value does not exceed `max`. */
  function ParseUint(s: string, max: nat): (r: Result<nat>)
    ensures r.Ok? <==> |s| >= 1 && (forall i :: 0 <= i < |s| ==> IsDigit(s[i])) && DigitsValue(s) <= max
    ensures r.Ok? ==> r.value <= max
  {
    if |s| == 0 || exists i :: 0 <= i < |s| && !IsDigit(s[i]) then Err(Failure("invalid syntax"))
    else if DigitsValue(s) > max then Err(Failure("value out of range"))
    else Ok(DigitsValue(s))
  }

  /** Reading back the decimal text of a number yields the number. */
  lemma {:induction false} DecimalRoundTrip(n: nat)
    ensures DigitsValue(Decimal(n)) == n
  {
    if n >= 10 {
      var s := Decimal(n);
      assert s[..|s| - 1] == Decimal(n / 10);
      DecimalRoundTrip(n / 10);
      assert s[|s| - 1] == DigitChar(n % 10);
    }
  }

  /** A number up to `max` parses back from its decimal text. */
  lemma ParseDecimal(n: nat, max: nat)
    requires n <= max
    ensures ParseUint(Decimal(n), max) == Ok(n)
  {
    DecimalRoundTrip(n);
  }
}
