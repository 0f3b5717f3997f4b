/**
 * String helpers with the semantics of the JavaScript built-ins the
 * application relies on: `indexOf`, `split` with a non-empty separator,
 * `join`, `trim`, `substring(0, n)`, ASCII `toLowerCase`, `includes`, and
 * the decimal rendering of an integer inside a template string.
 */
module Text {

  datatype Option<+T> = None | Some(value: T)

  datatype Result<+T, +E> = Ok(value: T) | Err(error: E)

  /** `sub` occurs in `s` starting at index `i`. */
  predicate OccursAt(s: string, sub: string, i: int)
  {
    0 <= i && i + |sub| <= |s| && s[i..i + |sub|] == sub
  }

  /** `sub` is a contiguous piece of `s`. */
  ghost predicate IsInfix(sub: string, s: string)
  {
    exists i :: OccursAt(s, sub, i)
  }

  lemma InfixTransitive(a: string, b: string, c: string)
    requires IsInfix(a, b) && IsInfix(b, c)
    ensures IsInfix(a, c)
  {
    var i :| OccursAt(b, a, i);
    var j :| OccursAt(c, b, j);
    forall k | 0 <= k < |a| ensures c[j + i + k] == a[k] {
      assert a[k] == b[i + k] == c[j + i + k];
    }
    assert c[j + i..j + i + |a|] == a;
    assert OccursAt(c, a, j + i);
  }

  lemma PrefixIsInfix(a: string, s: string)
    requires |a| <= |s| && s[..|a|] == a
    ensures IsInfix(a, s)
  {
    assert OccursAt(s, a, 0);
  }

  lemma InfixOfConcat(a: string, b: string, c: string)
    ensures IsInfix(b, a + b + c)
  {
    assert (a + b + c)[|a|..|a| + |b|] == b;
    assert OccursAt(a + b + c, b, |a|);
  }

  /** Facts about a seven-part template with a trailing marker: the values at the odd places occur in it and it ends with the marker. */
  lemma TemplateFacts(a: string, b: string, c: string, d: string, e: string, f: string, g: string, m: string)
    ensures var p := a + b + c + d + e + f + g + m;
      IsInfix(b, p) && IsInfix(d, p) && IsInfix(f, p) && |p| >= |m| && p[|p| - |m|..] == m
  {
    var p := a + b + c + d + e + f + g + m;
    assert p == a + b + (c + d + e + f + g + m);
    InfixOfConcat(a, b, c + d + e + f + g + m);
    assert p == (a + b + c) + d + (e + f + g + m);
    InfixOfConcat(a + b + c, d, e + f + g + m);
    assert p == (a + b + c + d + e) + f + (g + m);
    InfixOfConcat(a + b + c + d + e, f, g + m);
    assert p == (a + b + c + d + e + f + g) + m;
  }

  /** The values at the odd places of a five-part concatenation occur in it. */
  lemma InfixesOfFive(a: string, b: string, c: string, d: string, e: string)
    ensures IsInfix(b, a + b + c + d + e) && IsInfix(d, a + b + c + d + e)
  {
    var p := a + b + c + d + e;
    assert p == a + b + (c + d + e);
    InfixOfConcat(a, b, c + d + e);
    assert p == (a + b + c) + d + e;
    InfixOfConcat(a + b + c, d, e);
  }

  /** First index at or after `from` where `sub` occurs (String.prototype.indexOf). */
  function IndexOfFrom(s: string, sub: string, from: nat): (r: Option<nat>)
    decreases |s| - from
    ensures r.Some? ==> from <= r.value && OccursAt(s, sub, r.value)
    ensures r.Some? ==> forall k :: from <= k < r.value ==> !OccursAt(s, sub, k)
    ensures r.None? ==> forall k :: from <= k ==> !OccursAt(s, sub, k)
  {
    if from + |sub| > |s| then None
    else if s[from..from + |sub|] == sub then Some(from)
    else IndexOfFrom(s, sub, from + 1)
  }

  function IndexOf(s: string, sub: string): (r: Option<nat>)
    ensures r.Some? <==> IsInfix(sub, s)
    ensures r.Some? ==> OccursAt(s, sub, r.value) && forall k :: 0 <= k < r.value ==> !OccursAt(s, sub, k)
  {
    IndexOfFrom(s, sub, 0)
  }

  /** String.prototype.includes. */
  predicate Includes(s: string, sub: string)
  {
    IndexOf(s, sub).Some?
  }

  lemma IncludesEmpty(s: string)
    ensures Includes(s, "")
  {
    assert OccursAt(s, "", 0);
  }

  /** String.prototype.split with a non-empty separator: the pieces between occurrences. */
  function Split(s: string, sep: string): (parts: seq<string>)
    requires sep != []
    ensures |parts| >= 1
    decreases |s|
  {
    match IndexOf(s, sep)
    case None => [s]
    case Some(i) => [s[..i]] + Split(s[i + |sep|..], sep)
  }

  /** Array.prototype.join. */
  function Join(parts: seq<string>, sep: string): string
  {
    if |parts| == 0 then ""
    else if |parts| == 1 then parts[0]
    else parts[0] + sep + Join(parts[1..], sep)
  }

  /** A character that is in no piece and not in the separator is not in the joined string. */
  lemma {:induction false} JoinExcludes(parts: seq<string>, sep: string, c: char)
    requires forall k :: 0 <= k < |parts| ==> c !in parts[k]
    requires c !in sep
    ensures c !in Join(parts, sep)
  {
    if |parts| > 1 {
      JoinExcludes(parts[1..], sep, c);
    }
  }

  /** Splitting and joining again with the same separator gives back the string. */
  lemma {:induction false} JoinSplit(s: string, sep: string)
    requires sep != []
    ensures Join(Split(s, sep), sep) == s
    decreases |s|
  {
    match IndexOf(s, sep)
    case None =>
    case Some(i) =>
      var rest := s[i + |sep|..];
      var tail := Split(rest, sep);
      JoinSplit(rest, sep);
      assert Split(s, sep) == [s[..i]] + tail;
      assert Join([s[..i]] + tail, sep) == s[..i] + sep + Join(tail, sep);
      assert s == s[..i] + sep + rest;
  }

  /**
   * Joining pieces that never contain a one-character separator and splitting
   * again gives back the pieces.
   */
  lemma {:induction false} SplitJoin(parts: seq<string>, sep: string)
    requires |sep| == 1 && |parts| >= 1
    requires forall k :: 0 <= k < |parts| ==> sep[0] !in parts[k]
    ensures Split(Join(parts, sep), sep) == parts
    decreases |parts|
  {
    var s := Join(parts, sep);
    if |parts| == 1 {
    } else {
      var p := parts[0];
      assert s == p + sep + Join(parts[1..], sep);
      assert OccursAt(s, sep, |p|);
      forall k | 0 <= k < |p|
        ensures !OccursAt(s, sep, k)
      {
        assert s[k] == p[k];
      }
      assert IndexOf(s, sep) == Some(|p|);
      assert s[..|p|] == p;
      assert s[|p| + 1..] == Join(parts[1..], sep);
      SplitJoin(parts[1..], sep);
    }
  }

  /** Every piece of a split is a contiguous piece of the split string. */
  lemma {:induction false} SplitPartsAreInfixes(s: string, sep: string, k: nat)
    requires sep != [] && k < |Split(s, sep)|
    ensures IsInfix(Split(s, sep)[k], s)
    decreases |s|
  {
    match IndexOf(s, sep)
    case None =>
      assert OccursAt(s, s, 0);
    case Some(i) =>
      var rest := s[i + |sep|..];
      if k == 0 {
        PrefixIsInfix(s[..i], s);
      } else {
        SplitPartsAreInfixes(rest, sep, k - 1);
        assert OccursAt(s, rest, i + |sep|);
        InfixTransitive(Split(rest, sep)[k - 1], rest, s);
      }
  }

  /** The first piece of a split ends at the first separator, or is the whole string. */
  lemma FirstPiece(s: string, sep: string)
    requires sep != []
    ensures IsInfix(sep, s) ==> Split(s, sep)[0] == s[..IndexOf(s, sep).value]
    ensures !IsInfix(sep, s) ==> Split(s, sep) == [s]
  {
  }

  /** `s.split("\n")[0]`: the text before the first line break. */
  function FirstLine(s: string): (r: string)
    ensures |r| <= |s| && r == s[..|r|]
    ensures '\n' !in r
    ensures r == s <==> '\n' !in s
  {
    FirstLineBreak(s);
    Split(s, "\n")[0]
  }

  lemma FirstLineBreak(s: string)
    ensures '\n' in s ==> IndexOf(s, "\n").Some? && '\n' !in s[..IndexOf(s, "\n").value]
    ensures '\n' !in s ==> IndexOf(s, "\n").None?
  {
    if '\n' in s {
      var i :| 0 <= i < |s| && s[i] == '\n';
      assert OccursAt(s, "\n", i);
      var j := IndexOf(s, "\n").value;
      forall k | 0 <= k < j ensures s[k] != '\n' {
        assert !OccursAt(s, "\n", k);
        assert s[k..k + 1] == [s[k]];
      }
    } else {
      forall k | 0 <= k < |s| ensures !OccursAt(s, "\n", k) {
        assert s[k..k + 1] == [s[k]];
      }
    }
  }

  /** The characters String.prototype.trim removes: ECMAScript WhiteSpace and LineTerminator. */
  predicate IsJsWhitespace(c: char)
  {
    c == '\t' || c == '\n' || c == '\U{000B}' || c == '\U{000C}' || c == '\r' || c == ' '
    || c == '\U{00A0}' || c == '\U{1680}' || ('\U{2000}' <= c <= '\U{200A}')
    || c == '\U{2028}' || c == '\U{2029}' || c == '\U{202F}' || c == '\U{205F}'
    || c == '\U{3000}' || c == '\U{FEFF}'
  }

  /** Drops the leading whitespace. */
  function TrimStart(s: string): string
  {
    if s != [] && IsJsWhitespace(s[0]) then TrimStart(s[1..]) else s
  }

  /** Drops the trailing whitespace. */
  function TrimEnd(s: string): string
  {
    if s != [] && IsJsWhitespace(s[|s| - 1]) then TrimEnd(s[..|s| - 1]) else s
  }

  /** What remains after dropping leading whitespace is a suffix that starts with something else. */
  lemma {:induction false} TrimStartFacts(s: string)
    ensures var r := TrimStart(s);
      && |r| <= |s| && r == s[|s| - |r|..]
      && (r == [] || !IsJsWhitespace(r[0]))
      && forall k :: 0 <= k < |s| - |r| ==> IsJsWhitespace(s[k])
    decreases |s|
  {
    if s != [] && IsJsWhitespace(s[0]) {
      TrimStartFacts(s[1..]);
    }
  }

  /** What remains after dropping trailing whitespace is a prefix that ends with something else. */
  lemma {:induction false} TrimEndFacts(s: string)
    ensures var r := TrimEnd(s);
      && |r| <= |s| && r == s[..|r|]
      && (r == [] || !IsJsWhitespace(r[|r| - 1]))
      && forall k :: |r| <= k < |s| ==> IsJsWhitespace(s[k])
    decreases |s|
  {
    if s != [] && IsJsWhitespace(s[|s| - 1]) {
      TrimEndFacts(s[..|s| - 1]);
    }
  }

  /** String.prototype.trim. */
  function Trim(s: string): (r: string)
    ensures IsInfix(r, s)
    ensures r == [] || (!IsJsWhitespace(r[0]) && !IsJsWhitespace(r[|r| - 1]))
  {
    var t := TrimStart(s);
    var r := TrimEnd(t);
    TrimStartFacts(s);
    TrimEndFacts(t);
    assert OccursAt(s, r, |s| - |t|) by {
      assert s[|s| - |t|..|s| - |t| + |r|] == t[..|r|];
    }
    r
  }

  /** Trimming leaves nothing exactly when every character is whitespace. */
  lemma TrimBlank(s: string)
    ensures Trim(s) == [] <==> forall k :: 0 <= k < |s| ==> IsJsWhitespace(s[k])
  {
    var t := TrimStart(s);
    TrimStartFacts(s);
    TrimEndFacts(t);
    assert Trim(s) == [] ==> t == [];
  }

  /** `s.substring(0, n)`: at most the first `n` characters. */
  function Prefix(s: string, n: nat): (r: string)
    ensures |r| == if |s| < n then |s| else n
    ensures r == s[..|r|]
  {
    if |s| <= n then s else s[..n]
  }

  /** ASCII case folding; other characters are kept (see README). */
  function LowerChar(c: char): (d: char)
    ensures 'A' <= c <= 'Z' ==> d as int == c as int + 32
    ensures !('A' <= c <= 'Z') ==> d == c
  {
    if 'A' <= c <= 'Z' then (c as int + 32) as char else c
  }

  function ToLower(s: string): (r: string)
    ensures |r| == |s|
    ensures forall k :: 0 <= k < |s| ==> r[k] == LowerChar(s[k])
  {
    if s == [] then [] else [LowerChar(s[0])] + ToLower(s[1..])
  }

  function DigitChar(d: nat): (c: char)
    requires d < 10
  {
    ('0' as int + d) as char
  }

  function DigitValue(c: char): int
  {
    c as int - '0' as int
  }

  /** Decimal digits of a natural number, as a JavaScript template string renders it. */
  function NatToString(n: nat): (s: string)
    ensures |s| >= 1
    ensures forall k :: 0 <= k < |s| ==> '0' <= s[k] <= '9'
    ensures |s| > 1 ==> s[0] != '0'
  {
    if n < 10 then [DigitChar(n)] else NatToString(n / 10) + [DigitChar(n % 10)]
  }

  /** An integer in decimal, with a leading '-' when negative. */
  function IntToString(n: int): (s: string)
    ensures |s| >= 1
  {
    if n < 0 then "-" + NatToString(-n) else NatToString(n)
  }

  /** A rendered integer is a single line. */
  lemma NoBreakInDigits(n: int)
    ensures '\n' !in IntToString(n)
  {
    var digits := NatToString(if n < 0 then -n else n);
    assert forall k :: 0 <= k < |digits| ==> digits[k] != '\n';
  }

  /** The value of a string of decimal digits. */
  function DecimalValue(s: string): int
  {
    if s == [] then 0 else 10 * DecimalValue(s[..|s| - 1]) + DigitValue(s[|s| - 1])
  }

  /** Reading back the digits gives the number: the rendering loses nothing. */
  lemma {:induction false} NatToStringRoundTrip(n: nat)
    ensures DecimalValue(NatToString(n)) == n
  {
    var s := NatToString(n);
    if n >= 10 {
      NatToStringRoundTrip(n / 10);
      assert s[..|s| - 1] == NatToString(n / 10);
    }
  }
}
