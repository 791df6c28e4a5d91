/**
 * The JavaScript string built-ins the application relies on, on strings of
 * characters: `startsWith`, `endsWith`, `substring`, `replace` with a string
 * pattern, `replace` of every occurrence of one character, `split` and `join`
 * with a one-character separator, `trim`, and the white-space class used by
 * both `trim` and the regular-expression escape `\s`.
 */
module JsString {
  import opened JsArray

  predicate StartsWith(s: string, prefix: string) {
    |prefix| <= |s| && s[..|prefix|] == prefix
  }

  predicate EndsWith(s: string, suffix: string) {
    |suffix| <= |s| && s[|s| - |suffix|..] == suffix
  }

  /** `pattern` occurs somewhere in `s` (the empty pattern occurs everywhere). */
  predicate Contains(s: string, pattern: string)
    decreases |s|
  {
    StartsWith(s, pattern) || (s != [] && Contains(s[1..], pattern))
  }

  /** `s.substring(start)`: everything from index `start` on, or nothing past the end. */
  function Substring(s: string, start: nat): string
  {
    if start <= |s| then s[start..] else ""
  }

  /** The first `start` characters followed by the substring give back the string. */
  lemma SubstringSpec(s: string, start: nat)
    ensures start <= |s| ==> s == s[..start] + Substring(s, start)
    ensures start >= |s| ==> Substring(s, start) == ""
  {
  }

  /**
   * `s.replace(pattern, replacement)` with a string pattern and a replacement
   * without `$` (which JavaScript would expand): only the first occurrence is replaced.
   */
  function ReplaceFirst(s: string, pattern: string, replacement: string): string
    decreases |s|
  {
    if StartsWith(s, pattern) then replacement + s[|pattern|..]
    else if s == [] then s
    else [s[0]] + ReplaceFirst(s[1..], pattern, replacement)
  }

  /** A pattern at the start is the one replaced; a string without the pattern is unchanged. */
  lemma {:induction false} ReplaceFirstSpec(s: string, pattern: string, replacement: string)
    ensures StartsWith(s, pattern) ==> ReplaceFirst(s, pattern, replacement) == replacement + s[|pattern|..]
    ensures !Contains(s, pattern) ==> ReplaceFirst(s, pattern, replacement) == s
    decreases |s|
  {
    if !StartsWith(s, pattern) && s != [] {
      ReplaceFirstSpec(s[1..], pattern, replacement);
    }
  }

  /** `s.replace(/c/g, '')`: every occurrence of `c` removed, the other characters kept in order. */
  function RemoveAll(s: string, c: char): string
  {
    Filter(s, (x: char) => x != c)
  }

  /** No `c` is left, and a string without `c` is unchanged. */
  lemma RemoveAllSpec(s: string, c: char)
    ensures c !in RemoveAll(s, c)
    ensures c !in s ==> RemoveAll(s, c) == s
  {
    FilterSpec(s, (x: char) => x != c);
    if c !in s {
      FilterAll(s, (x: char) => x != c);
    }
  }

  /** One character is dropped when it is `c` and kept otherwise. */
  lemma RemoveAllSingle(x: char, c: char)
    ensures RemoveAll([x], c) == if x == c then [] else [x]
  {
    FilterSingle(x, (y: char) => y != c);
  }

  /** Removing a character from a concatenation removes it from each part. */
  lemma RemoveAllConcat(a: string, b: string, c: char)
    ensures RemoveAll(a + b, c) == RemoveAll(a, c) + RemoveAll(b, c)
  {
    FilterConcat(a, b, (x: char) => x != c);
  }

  /** `s.split(sep)` for a one-character separator: the pieces between separators, at least one. */
  function Split(s: string, sep: char): (parts: seq<string>)
    ensures |parts| >= 1
    decreases |s|
  {
    if s == [] then [""]
    else
      var rest := Split(s[1..], sep);
      if s[0] == sep then [""] + rest
      else [[s[0]] + rest[0]] + rest[1..]
  }

  /** `parts.join(sep)`: the parts with one separator between neighbours; `''` for no parts. */
  function Join(parts: seq<string>, sep: char): string
  {
    if parts == [] then ""
    else if |parts| == 1 then parts[0]
    else parts[0] + [sep] + Join(parts[1..], sep)
  }

  /** No piece of a split contains the separator. */
  lemma {:induction false} SplitPieces(s: string, sep: char)
    ensures forall i :: 0 <= i < |Split(s, sep)| ==> sep !in Split(s, sep)[i]
  {
    if s != [] {
      SplitPieces(s[1..], sep);
    }
  }

  /** Joining the pieces of a split with the same separator gives back the string. */
  lemma {:induction false} JoinSplit(s: string, sep: char)
    ensures Join(Split(s, sep), sep) == s
  {
    if s != [] {
      var rest := Split(s[1..], sep);
      JoinSplit(s[1..], sep);
      if s[0] == sep {
        assert Join([""] + rest, sep) == "" + [sep] + Join(rest, sep) by {
          assert ([""] + rest)[1..] == rest;
        }
        assert s == [sep] + s[1..];
      } else {
        JoinCons(s[0], rest, sep);
        assert s == [s[0]] + s[1..];
      }
    }
  }

  /** Prefixing the first part with a character prefixes the join with it. */
  lemma JoinCons(c: char, rest: seq<string>, sep: char)
    requires |rest| >= 1
    ensures Join([[c] + rest[0]] + rest[1..], sep) == [c] + Join(rest, sep)
  {
    var parts := [[c] + rest[0]] + rest[1..];
    if |rest| > 1 {
      assert parts[0] == [c] + rest[0];
      assert parts[1..] == rest[1..];
    }
  }

  /** A string without the separator is a single piece. */
  lemma {:induction false} SplitNoSeparator(s: string, sep: char)
    requires sep !in s
    ensures Split(s, sep) == [s]
  {
    if s != [] {
      SplitNoSeparator(s[1..], sep);
      assert [s[0]] + s[1..] == s;
    }
  }

  /** Splitting at one separator splits each side independently. */
  lemma {:induction false} SplitConcat(a: string, b: string, sep: char)
    ensures Split(a + [sep] + b, sep) == Split(a, sep) + Split(b, sep)
  {
    var s := a + [sep] + b;
    if a == [] {
      assert s[1..] == b;
    } else {
      assert s[0] == a[0];
      assert s[1..] == a[1..] + [sep] + b;
      SplitConcat(a[1..], b, sep);
      if a[0] == sep {
        assert [""] + (Split(a[1..], sep) + Split(b, sep)) == ([""] + Split(a[1..], sep)) + Split(b, sep);
      } else {
        ConsFirstPiece(a[0], Split(a[1..], sep), Split(b, sep));
      }
    }
  }

  /** Prefixing the first piece of `x + y` with `c` is prefixing the first piece of `x`, when `x` has one. */
  lemma ConsFirstPiece(c: char, x: seq<string>, y: seq<string>)
    requires |x| >= 1
    ensures [[c] + (x + y)[0]] + (x + y)[1..] == ([[c] + x[0]] + x[1..]) + y
  {
    assert (x + y)[0] == x[0];
    assert (x + y)[1..] == x[1..] + y;
  }

  /** The first piece is everything before the first separator, the others split what follows it. */
  lemma SplitAtFirst(a: string, b: string, sep: char)
    requires sep !in a
    ensures Split(a + [sep] + b, sep) == [a] + Split(b, sep)
  {
    SplitConcat(a, b, sep);
    SplitNoSeparator(a, sep);
  }

  /** Cut at the first separator: the first piece is what precedes it, the rest rejoin to what follows. */
  lemma SplitFirstField(s: string, sep: char, k: nat)
    requires k < |s| && s[k] == sep && sep !in s[..k]
    ensures Split(s, sep)[0] == s[..k]
    ensures Join(Split(s, sep)[1..], sep) == s[k + 1..]
  {
    assert s == s[..k] + [sep] + s[k + 1..];
    SplitAtFirst(s[..k], s[k + 1..], sep);
    assert Split(s, sep)[1..] == Split(s[k + 1..], sep);
    JoinSplit(s[k + 1..], sep);
  }

  /** There is exactly one more piece than there are separators. */
  lemma {:induction false} SplitCount(s: string, sep: char)
    ensures |Split(s, sep)| == multiset(s)[sep] + 1
  {
    if s != [] {
      SplitCount(s[1..], sep);
      assert s == [s[0]] + s[1..];
      assert multiset(s) == multiset([s[0]]) + multiset(s[1..]);
    }
  }

  /** Splitting a join of separator-free parts gives back the parts. */
  lemma {:induction false} SplitJoin(parts: seq<string>, sep: char)
    requires |parts| >= 1
    requires forall i :: 0 <= i < |parts| ==> sep !in parts[i]
    ensures Split(Join(parts, sep), sep) == parts
  {
    if |parts| == 1 {
      SplitNoSeparator(parts[0], sep);
    } else {
      SplitJoin(parts[1..], sep);
      SplitAtFirst(parts[0], Join(parts[1..], sep), sep);
      assert parts == [parts[0]] + parts[1..];
    }
  }

  /**
   * The characters JavaScript counts as white space (WhiteSpace and
   * LineTerminator of ECMAScript): what `trim` removes and what `\s` matches.
   */
  predicate IsWhitespace(c: char) {
    c == '\t' || c == '\n' || c == '\U{000B}' || c == '\U{000C}' || c == '\r' || c == ' '
    || c == '\U{00A0}' || c == '\U{1680}' || ('\U{2000}' <= c <= '\U{200A}')
    || c == '\U{2028}' || c == '\U{2029}' || c == '\U{202F}' || c == '\U{205F}'
    || c == '\U{3000}' || c == '\U{FEFF}'
  }

  predicate AllWhitespace(s: string) {
    forall i :: 0 <= i < |s| ==> IsWhitespace(s[i])
  }

  function TrimStart(s: string): string
  {
    if s != [] && IsWhitespace(s[0]) then TrimStart(s[1..]) else s
  }

  function TrimEnd(s: string): string
  {
    if s != [] && IsWhitespace(s[|s| - 1]) then TrimEnd(s[..|s| - 1]) else s
  }

  /** `s.trim()`: `s` without its leading and trailing white space. */
  function Trim(s: string): string
  {
    TrimEnd(TrimStart(s))
  }

  /** `TrimStart` drops a white-space prefix and leaves a string that does not start with white space. */
  lemma {:induction false} TrimStartSpec(s: string)
    ensures var r := TrimStart(s);
      && |r| <= |s| && r == s[|s| - |r|..]
      && AllWhitespace(s[..|s| - |r|])
      && (r == [] || !IsWhitespace(r[0]))
  {
    if s != [] && IsWhitespace(s[0]) {
      TrimStartSpec(s[1..]);
    }
  }

  /** `TrimEnd` drops a white-space suffix and leaves a string that does not end with white space. */
  lemma {:induction false} TrimEndSpec(s: string)
    ensures var r := TrimEnd(s);
      && |r| <= |s| && r == s[..|r|]
      && AllWhitespace(s[|r|..])
      && (r == [] || !IsWhitespace(r[|r| - 1]))
  {
    if s != [] && IsWhitespace(s[|s| - 1]) {
      var u := s[..|s| - 1];
      TrimEndSpec(u);
      var r := TrimEnd(u);
      assert s[..|r|] == u[..|r|];
      forall i | |r| <= i < |s| ensures IsWhitespace(s[i]) {
        if i < |s| - 1 { assert s[i] == u[|r|..][i - |r|]; }
      }
    }
  }

  /** A trimmed string neither starts nor ends with white space. */
  lemma TrimEdges(s: string)
    ensures var r := Trim(s); r == [] || (!IsWhitespace(r[0]) && !IsWhitespace(r[|r| - 1]))
  {
    TrimStartSpec(s);
    TrimEndSpec(TrimStart(s));
    var t := TrimStart(s);
    var r := TrimEnd(t);
    if r != [] {
      assert r[0] == t[0];
    }
  }

  /** `s` is white space, then the trimmed text, then white space. */
  lemma TrimParts(s: string) returns (lead: nat, trail: nat)
    ensures lead + |Trim(s)| + trail == |s|
    ensures s == s[..lead] + Trim(s) + s[lead + |Trim(s)|..]
    ensures AllWhitespace(s[..lead]) && AllWhitespace(s[lead + |Trim(s)|..])
  {
    var t := TrimStart(s);
    var r := TrimEnd(t);
    TrimStartSpec(s);
    TrimEndSpec(t);
    lead := |s| - |t|;
    trail := |t| - |r|;
    Sandwich(s, t, r, lead);
  }

  /** Where `t` is a suffix of `s` and `r` a prefix of `t`, `s` is what precedes `t`, then `r`, then the rest. */
  lemma Sandwich(s: string, t: string, r: string, lead: nat)
    requires lead <= |s| && t == s[lead..]
    requires |r| <= |t| && r == t[..|r|]
    ensures s == s[..lead] + r + s[lead + |r|..]
    ensures t[|r|..] == s[lead + |r|..]
  {
    assert s == s[..lead] + t;
    assert t == r + t[|r|..];
  }

  /** Trimming leaves nothing exactly when the string is all white space. */
  lemma TrimEmpty(s: string)
    ensures Trim(s) == "" <==> AllWhitespace(s)
  {
    var lead, trail := TrimParts(s);
    TrimEdges(s);
    var r := Trim(s);
    if r == "" {
      forall i | 0 <= i < |s| ensures IsWhitespace(s[i]) {
        if i < lead { assert s[i] == s[..lead][i]; }
        else { assert s[i] == s[lead..][i - lead]; }
      }
    } else {
      assert s[lead] == r[0];
      assert !IsWhitespace(s[lead]);
    }
  }

  predicate IsDigit(c: char) {
    '0' <= c <= '9'
  }

  predicate AllDigits(s: string) {
    forall i :: 0 <= i < |s| ==> IsDigit(s[i])
  }

  /** The length of the longest run of decimal digits at the start of `s`. */
  function DigitRun(s: string): (n: nat)
    ensures n <= |s|
  {
    if s != [] && IsDigit(s[0]) then 1 + DigitRun(s[1..]) else 0
  }

  /** The run is all digits, and the character after it, if any, is not a digit. */
  lemma {:induction false} DigitRunSpec(s: string)
    ensures AllDigits(s[..DigitRun(s)])
    ensures DigitRun(s) < |s| ==> !IsDigit(s[DigitRun(s)])
  {
    if s != [] && IsDigit(s[0]) {
      DigitRunSpec(s[1..]);
      var n := DigitRun(s);
      assert s[..n] == [s[0]] + s[1..][..n - 1];
    }
  }
}
