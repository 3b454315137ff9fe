/**
 * The Python string operations the modelled code relies on: `strip`, `split()` on
 * whitespace, `split(sep)`, `' '.join`, `startswith`, `find`, `lower` and `str(int)`.
 */
module Text {
  import opened Wrappers

  /** Python's `str.isspace()` for a single character. */
  predicate IsSpace(c: char) {
    var n := c as int;
    n == 0x20 || 0x09 <= n <= 0x0D || 0x1C <= n <= 0x1F || n == 0x85 || n == 0xA0
    || n == 0x1680 || 0x2000 <= n <= 0x200A || n == 0x2028 || n == 0x2029
    || n == 0x202F || n == 0x205F || n == 0x3000
  }

  predicate IsQuote(c: char) {
    c == '\''
  }

  /** The character sets the modelled code strips: whitespace, and the single quote. */
  datatype CharSet = Spaces | Quotes

  predicate In(c: char, cs: CharSet) {
    match cs
    case Spaces => IsSpace(c)
    case Quotes => IsQuote(c)
  }

  /** Python's `s.startswith(prefix)`. */
  predicate StartsWith(s: string, prefix: string) {
    |prefix| <= |s| && s[..|prefix|] == prefix
  }

  /** Python's `s.lstrip(chars)`: the suffix left after dropping leading characters of `cs`. */
  function TrimStart(s: string, cs: CharSet): (r: string)
    ensures |r| <= |s|
  {
    if s != [] && In(s[0], cs) then TrimStart(s[1..], cs) else s
  }

  /** Python's `s.rstrip(chars)`: the prefix left after dropping trailing characters of `cs`. */
  function TrimEnd(s: string, cs: CharSet): (r: string)
    ensures |r| <= |s|
  {
    if s != [] && In(s[|s| - 1], cs) then TrimEnd(s[..|s| - 1], cs) else s
  }

  /** Python's `s.strip(chars)`. */
  function Strip(s: string, cs: CharSet): string {
    TrimEnd(TrimStart(s, cs), cs)
  }

  /** `lstrip` removes exactly the longest prefix of characters in the set. */
  lemma {:induction false} TrimStartSpec(s: string, cs: CharSet)
    ensures var r := TrimStart(s, cs);
      && r == s[|s| - |r|..]
      && (r != [] ==> !In(r[0], cs))
      && (forall i :: 0 <= i < |s| - |r| ==> In(s[i], cs))
  {
    if s != [] && In(s[0], cs) {
      TrimStartSpec(s[1..], cs);
      var r := TrimStart(s, cs);
      assert forall i :: 1 <= i < |s| ==> s[1..][i - 1] == s[i];
      assert s[1..][|s| - 1 - |r|..] == s[|s| - |r|..];
    }
  }

  /** `rstrip` removes exactly the longest suffix of characters in the set. */
  lemma {:induction false} TrimEndSpec(s: string, cs: CharSet)
    ensures var r := TrimEnd(s, cs);
      && r == s[..|r|]
      && (r != [] ==> !In(r[|r| - 1], cs))
      && (forall i :: |r| <= i < |s| ==> In(s[i], cs))
  {
    if s != [] && In(s[|s| - 1], cs) {
      TrimEndSpec(s[..|s| - 1], cs);
      var r := TrimEnd(s, cs);
      assert s[..|s| - 1][..|r|] == s[..|r|];
    }
  }

  /**
   * `strip` leaves the middle slice `s[a..b]` of `s`: everything before `a` and from `b` on is
   * in the set, and the slice neither starts nor ends with a character of the set.
   */
  lemma StripSpec(s: string, cs: CharSet)
    ensures exists a, b :: (0 <= a <= b <= |s| && Strip(s, cs) == s[a..b] &&
      (forall i :: 0 <= i < a ==> In(s[i], cs)) && (forall i :: b <= i < |s| ==> In(s[i], cs)))
    ensures var r := Strip(s, cs); r != [] ==> !In(r[0], cs) && !In(r[|r| - 1], cs)
  {
    var t := TrimStart(s, cs);
    TrimStartSpec(s, cs);
    TrimEndSpec(t, cs);
    var r := TrimEnd(t, cs);
    var a := |s| - |t|;
    assert r == s[a..a + |r|];
  }

  /** The longest prefix of `s` without whitespace. */
  function TakeWord(s: string): (w: string)
    ensures |w| <= |s|
    ensures s != [] && !IsSpace(s[0]) ==> w != []
  {
    if s == [] || IsSpace(s[0]) then [] else [s[0]] + TakeWord(s[1..])
  }

  /** Python's `s.split()`: the maximal runs of non-whitespace characters, in order. */
  function Words(s: string): seq<string>
    decreases |s|
  {
    if s == [] then []
    else if IsSpace(s[0]) then Words(s[1..])
    else
      var w := TakeWord(s);
      [w] + Words(s[|w|..])
  }

  /** A word taken is a run of non-whitespace ended by the end of the text or by whitespace. */
  lemma {:induction false} TakeWordSpec(s: string)
    ensures var w := TakeWord(s);
      && w == s[..|w|]
      && (forall i :: 0 <= i < |w| ==> !IsSpace(w[i]))
      && (|w| < |s| ==> IsSpace(s[|w|]))
  {
    if s != [] && !IsSpace(s[0]) {
      TakeWordSpec(s[1..]);
    }
  }

  /** Python's `sep.join(parts)`. */
  function Join(parts: seq<string>, sep: string): string {
    if |parts| == 0 then ""
    else if |parts| == 1 then parts[0]
    else parts[0] + sep + Join(parts[1..], sep)
  }

  /** Python's `s.find(sub)`, with `None` for -1. */
  function Find(s: string, sub: string): (r: Option<nat>)
    ensures r.Some? ==> r.value + |sub| <= |s| && StartsWith(s[r.value..], sub)
    ensures r.Some? ==> forall j :: 0 <= j < r.value ==> !StartsWith(s[j..], sub)
    ensures r.None? ==> forall j :: 0 <= j <= |s| ==> !StartsWith(s[j..], sub)
    decreases |s|
  {
    if StartsWith(s, sub) then Some(0)
    else if s == [] then None
    else
      var k := Find(s[1..], sub);
      assert forall j :: 1 <= j <= |s| ==> s[j..] == s[1..][j - 1..];
      match k
      case None => None
      case Some(k) => Some(k + 1)
  }

  /** Python's `sub in s`. */
  predicate Contains(s: string, sub: string) {
    Find(s, sub).Some?
  }

  /** A prefix of `s` before which `sub` does not start anywhere does not contain `sub`. */
  lemma NoMatchInPrefix(s: string, sub: string, n: nat)
    requires sub != [] && n <= |s|
    requires forall j :: 0 <= j < n ==> !StartsWith(s[j..], sub)
    ensures !Contains(s[..n], sub)
  {
    var f := Find(s[..n], sub);
    if f.Some? {
      var k := f.value;
      assert s[..n][k..][..|sub|] == s[k..][..|sub|];
      assert StartsWith(s[k..], sub);
    }
  }

  /** Python's `s.split(sep)` for a non-empty separator: the pieces between occurrences. */
  function Split(s: string, sep: string): (parts: seq<string>)
    requires sep != []
    ensures parts != []
    ensures Join(parts, sep) == s
    ensures forall i :: 0 <= i < |parts| ==> !Contains(parts[i], sep)
    decreases |s|
  {
    match Find(s, sep)
    case None =>
      NoMatchInPrefix(s, sep, |s|);
      assert s[..|s|] == s;
      [s]
    case Some(i) =>
      NoMatchInPrefix(s, sep, i);
      var rest := Split(s[i + |sep|..], sep);
      assert s == s[..i] + sep + s[i + |sep|..] by {
        assert s[i..][..|sep|] == sep;
      }
      assert ([s[..i]] + rest)[1..] == rest;
      [s[..i]] + rest
  }

  /** The first piece of a split is the text before the first occurrence of the separator. */
  lemma {:induction false} SplitFirst(s: string, sep: string)
    requires sep != []
    ensures var p := Split(s, sep)[0];
      && p == s[..|p|]
      && (forall j :: 0 <= j < |p| ==> !StartsWith(s[j..], sep))
      && (|p| == |s| || StartsWith(s[|p|..], sep))
      && (|Split(s, sep)| >= 2 <==> Find(s, sep).Some?)
  {
    match Find(s, sep)
    case None =>
      assert s[..|s|] == s;
    case Some(i) =>
  }

  /** The second piece of a split is the first piece of the text after the first separator. */
  lemma SplitSecond(s: string, sep: string)
    requires sep != [] && |Split(s, sep)| >= 2
    ensures Find(s, sep).Some?
    ensures Split(s, sep)[1] == Split(s[Find(s, sep).value + |sep|..], sep)[0]
  {
    SplitFirst(s, sep);
  }

  /** For a one-character separator, "contains" is plain membership. */
  lemma ContainsChar(s: string, c: char)
    ensures Contains(s, [c]) <==> c in s
  {
    if c in s {
      var j :| 0 <= j < |s| && s[j] == c;
      assert StartsWith(s[j..], [c]);
    }
    if Contains(s, [c]) {
      var k := Find(s, [c]).value;
      assert s[k..][..1] == [c];
      assert s[k] == c;
    }
  }

  function DigitChar(d: nat): char
    requires d < 10
  {
    "0123456789"[d]
  }

  /** Python's `str(n)` for a non-negative integer. */
  function Decimal(n: nat): (r: string)
    ensures r != []
  {
    if n < 10 then [DigitChar(n)] else Decimal(n / 10) + [DigitChar(n % 10)]
  }

  function LowerChar(c: char): char {
    if 'A' <= c <= 'Z' then (c as int + 32) as char else c
  }

  /** Python's `s.lower()` restricted to the ASCII letters. */
  function Lower(s: string): (r: string)
    ensures |r| == |s| && forall i :: 0 <= i < |s| ==> r[i] == LowerChar(s[i])
  {
    if s == [] then [] else [LowerChar(s[0])] + Lower(s[1..])
  }
}
