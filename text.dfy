/**
 * String operations of Python and JavaScript that the backend and the
 * frontend rely on: white-space stripping (the two languages disagree on
 * which characters are white space), ASCII lower-casing, splitting on one
 * character, joining and substring search.
 */
module Text {
  /** Characters for which Python's str.isspace() holds; str.strip() removes these. */
  predicate IsPyWhitespace(c: char)
  {
    ('\t' <= c <= '\r') || ('\U{1C}' <= c <= '\U{1F}') || c == ' ' || c == '\U{85}' || c == '\U{A0}'
    || c == '\U{1680}' || ('\U{2000}' <= c <= '\U{200A}') || c == '\U{2028}' || c == '\U{2029}'
    || c == '\U{202F}' || c == '\U{205F}' || c == '\U{3000}'
  }

  /** Characters JavaScript's String.prototype.trim() and the class \s of a regular expression treat as white space. */
  predicate IsJsWhitespace(c: char)
  {
    ('\t' <= c <= '\r') || c == ' ' || c == '\U{A0}' || c == '\U{1680}' || ('\U{2000}' <= c <= '\U{200A}')
    || c == '\U{2028}' || c == '\U{2029}' || c == '\U{202F}' || c == '\U{205F}' || c == '\U{3000}'
    || c == '\U{FEFF}'
  }

  /** How many leading characters of `s` satisfy `ws`. */
  function LeadingCount(s: string, ws: char -> bool): (n: nat)
    ensures n <= |s|
    ensures forall i :: 0 <= i < n ==> ws(s[i])
    ensures n == |s| || !ws(s[n])
  {
    if |s| > 0 && ws(s[0]) then 1 + LeadingCount(s[1..], ws) else 0
  }

  /** How many trailing characters of `s` satisfy `ws`. */
  function TrailingCount(s: string, ws: char -> bool): (n: nat)
    ensures n <= |s|
    ensures forall i :: |s| - n <= i < |s| ==> ws(s[i])
    ensures n == |s| || !ws(s[|s| - 1 - n])
  {
    if |s| > 0 && ws(s[|s| - 1]) then 1 + TrailingCount(s[..|s| - 1], ws) else 0
  }

  /** Drops the leading characters that satisfy `ws`. */
  function TrimStart(s: string, ws: char -> bool): string
  {
    s[LeadingCount(s, ws)..]
  }

  /** Drops the trailing characters that satisfy `ws`. */
  function TrimEnd(s: string, ws: char -> bool): string
  {
    s[..|s| - TrailingCount(s, ws)]
  }

  /** Drops white space, as defined by `ws`, at both ends. */
  function Strip(s: string, ws: char -> bool): string
  {
    TrimEnd(TrimStart(s, ws), ws)
  }

  /** Python's `s.strip()`. */
  function PyStrip(s: string): string
  {
    Strip(s, IsPyWhitespace)
  }

  /** JavaScript's `s.trim()`. */
  function JsTrim(s: string): string
  {
    Strip(s, IsJsWhitespace)
  }

  /** `sub` occurs in `s` at position `k`. */
  predicate OccursAt(s: string, sub: string, k: int)
  {
    0 <= k <= |s| - |sub| && s[k..k + |sub|] == sub
  }

  /** Stripping leaves nothing exactly when every character is white space. */
  lemma StripEmptyIff(s: string, ws: char -> bool)
    ensures Strip(s, ws) == [] <==> forall i :: 0 <= i < |s| ==> ws(s[i])
  {
    var n := LeadingCount(s, ws);
    var t := TrimStart(s, ws);
    if n < |s| {
      assert t[0] == s[n];
      assert TrailingCount(t, ws) < |t|;
    }
  }

  /** The stripped text neither starts nor ends with white space, and occurs in `s`. */
  lemma StripShape(s: string, ws: char -> bool)
    ensures var r := Strip(s, ws);
      (r == [] || (!ws(r[0]) && !ws(r[|r| - 1])))
      && exists k :: OccursAt(s, r, k)
  {
    var n := LeadingCount(s, ws);
    var t := TrimStart(s, ws);
    var r := TrimEnd(t, ws);
    assert s[n..n + |r|] == r;
    assert OccursAt(s, r, n);
    if r != [] {
      assert r[0] == t[0];
    }
  }

  /** Text that neither starts nor ends with white space is left as it is. */
  lemma StripUnpadded(s: string, ws: char -> bool)
    requires s == [] || (!ws(s[0]) && !ws(s[|s| - 1]))
    ensures Strip(s, ws) == s
  {
    assert LeadingCount(s, ws) == 0;
    assert TrimStart(s, ws) == s;
    assert TrailingCount(s, ws) == 0;
  }

  /** Stripping twice is stripping once. */
  lemma StripIdempotent(s: string, ws: char -> bool)
    ensures Strip(Strip(s, ws), ws) == Strip(s, ws)
  {
    var r := Strip(s, ws);
    StripShape(s, ws);
    assert LeadingCount(r, ws) == 0;
    assert TrimStart(r, ws) == r;
    assert TrailingCount(r, ws) == 0;
  }

  /** ASCII lower-casing of one character; every other character is kept. */
  function LowerChar(c: char): (r: char)
    ensures 'A' <= c <= 'Z' ==> 'a' <= r <= 'z'
    ensures !('A' <= c <= 'Z') ==> r == c
  {
    if 'A' <= c <= 'Z' then (c as int - 'A' as int + 'a' as int) as char else c
  }

  /** `s.lower()` / `s.toLowerCase()` on the ASCII letters. */
  function Lower(s: string): string
  {
    seq(|s|, i requires 0 <= i < |s| => LowerChar(s[i]))
  }

  /** Lower-casing keeps white space and non-white space apart, in both languages. */
  lemma LowerCharKeepsSpace(c: char)
    ensures IsPyWhitespace(LowerChar(c)) == IsPyWhitespace(c)
    ensures IsJsWhitespace(LowerChar(c)) == IsJsWhitespace(c)
  {
  }

  lemma {:induction false} LeadingCountLower(s: string)
    ensures LeadingCount(Lower(s), IsPyWhitespace) == LeadingCount(s, IsPyWhitespace)
  {
    if |s| > 0 {
      LowerCharKeepsSpace(s[0]);
      assert Lower(s)[1..] == Lower(s[1..]);
      LeadingCountLower(s[1..]);
    }
  }

  lemma {:induction false} TrailingCountLower(s: string)
    ensures TrailingCount(Lower(s), IsPyWhitespace) == TrailingCount(s, IsPyWhitespace)
  {
    if |s| > 0 {
      LowerCharKeepsSpace(s[|s| - 1]);
      assert Lower(s)[..|s| - 1] == Lower(s[..|s| - 1]);
      TrailingCountLower(s[..|s| - 1]);
    }
  }

  lemma LowerSlice(s: string, i: int, j: int)
    requires 0 <= i <= j <= |s|
    ensures Lower(s)[i..j] == Lower(s[i..j])
  {
  }

  /** `s.strip().lower() == s.lower().strip()`: the order of the two calls does not matter. */
  lemma {:induction false} LowerStripCommute(s: string)
    ensures Lower(PyStrip(s)) == PyStrip(Lower(s))
  {
    var ls := Lower(s);
    LeadingCountLower(s);
    var n := LeadingCount(s, IsPyWhitespace);
    var t := s[n..];
    LowerSlice(s, n, |s|);
    assert TrimStart(ls, IsPyWhitespace) == Lower(t);
    TrailingCountLower(t);
    var c := TrailingCount(t, IsPyWhitespace);
    LowerSlice(t, 0, |t| - c);
    assert TrimEnd(Lower(t), IsPyWhitespace) == Lower(t[..|t| - c]);
  }

  /** Python's `s.split(sep)` / JavaScript's `s.split(sep)` for a one-character separator. */
  function SplitOn(s: string, sep: char): (parts: seq<string>)
    ensures |parts| >= 1
    ensures forall k, i :: 0 <= k < |parts| && 0 <= i < |parts[k]| ==> parts[k][i] != sep
  {
    if sep !in s then [s]
    else
      var i := IndexOf(s, sep);
      [s[..i]] + SplitOn(s[i + 1..], sep)
  }

  /** The position of the first `c` in `s`. */
  function IndexOf(s: string, c: char): (i: nat)
    requires c in s
    ensures i < |s| && s[i] == c && c !in s[..i]
  {
    if s[0] == c then 0 else 1 + IndexOf(s[1..], c)
  }

  /** `sep.join(parts)` / `parts.join(sep)`. */
  function Join(parts: seq<string>, sep: string): string
  {
    if parts == [] then [] else if |parts| == 1 then parts[0] else parts[0] + sep + Join(parts[1..], sep)
  }

  /** Joining the pieces of a split with the separator gives back the text. */
  lemma {:induction false} JoinSplit(s: string, sep: char)
    ensures Join(SplitOn(s, sep), [sep]) == s
  {
    if sep in s {
      var i := IndexOf(s, sep);
      JoinSplitStep(s, sep);
      JoinSplit(s[i + 1..], sep);
      assert s == s[..i] + [sep] + s[i + 1..];
    }
  }

  /** One step of the split: the first piece, the separator, then the rest joined. */
  lemma JoinSplitStep(s: string, sep: char)
    requires sep in s
    ensures Join(SplitOn(s, sep), [sep]) == s[..IndexOf(s, sep)] + [sep] + Join(SplitOn(s[IndexOf(s, sep) + 1..], sep), [sep])
  {
    var i := IndexOf(s, sep);
    var parts := SplitOn(s, sep);
    assert parts[0] == s[..i] && parts[1..] == SplitOn(s[i + 1..], sep);
  }

  /** Python's `sub in s` / JavaScript's `s.includes(sub)`. */
  predicate Contains(s: string, sub: string)
  {
    exists i | 0 <= i <= |s| - |sub| :: OccursAt(s, sub, i)
  }

  /** Text that begins with `sub` contains it. */
  lemma PrefixContained(sub: string, rest: string)
    ensures Contains(sub + rest, sub)
  {
    assert OccursAt(sub + rest, sub, 0);
  }

  /** Text whose possible starting positions for `sub` never hold its first character does not contain `sub`. */
  lemma FirstCharMissing(s: string, sub: string)
    requires sub != [] && |sub| <= |s| && sub[0] !in s[..|s| - |sub| + 1]
    ensures !Contains(s, sub)
  {
    forall i | 0 <= i <= |s| - |sub|
      ensures !OccursAt(s, sub, i)
    {
      assert s[..|s| - |sub| + 1][i] == s[i];
      assert s[i..i + |sub|][0] == s[i];
    }
  }

  /** `s.startswith(p)`. */
  predicate StartsWith(s: string, p: string)
  {
    |p| <= |s| && s[..|p|] == p
  }

  /** Decimal digits of a natural number, most significant first, as `str(n)` writes it. */
  function NatToString(n: nat): (r: string)
    ensures |r| >= 1
    ensures forall i :: 0 <= i < |r| ==> '0' <= r[i] <= '9'
    decreases n
  {
    if n < 10 then [Digit(n)] else NatToString(n / 10) + [Digit(n % 10)]
  }

  /** The decimal text of a three-digit number such as an HTTP status. */
  lemma NatToStringThreeDigits(n: nat)
    requires 100 <= n < 1000
    ensures NatToString(n) == [Digit(n / 100), Digit(n / 10 % 10), Digit(n % 10)]
  {
    assert NatToString(n / 100) == [Digit(n / 100)];
    assert n / 10 / 10 == n / 100;
  }

  function Digit(d: nat): (c: char)
    requires d < 10
    ensures '0' <= c <= '9' && c as int - '0' as int == d
  {
    ('0' as int + d) as char
  }
}
