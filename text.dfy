/**
 * The string operations the application relies on, restricted to ASCII:
 * `trim`, `toLowerCase`/`toUpperCase`, `includes`, `split`, the first run of
 * decimal digits (the regex `/(\d+)/` followed by `parseInt`), the rendering
 * of a number in a template string, and `replace` of the first occurrence of
 * a character.
 */
module Text {
  import opened Wrappers

  // ---------------------------------------------------------------------------
  // Whitespace and trimming
  // ---------------------------------------------------------------------------

  /** ASCII whitespace as JavaScript's `trim` and the regex class `\s` see it. */
  predicate IsSpace(c: char) {
    c == ' ' || c == '\t' || c == '\n' || c == '\r' || c == '\U{B}' || c == '\U{C}'
  }

  predicate AllSpace(s: string) {
    forall i :: 0 <= i < |s| ==> IsSpace(s[i])
  }

  /** The number of whitespace characters `s` starts with. */
  function LeadingSpace(s: string): (n: nat)
    ensures n <= |s|
  {
    if s != [] && IsSpace(s[0]) then 1 + LeadingSpace(s[1..]) else 0
  }

  /** The leading run is all whitespace and stops at the first other character. */
  lemma {:induction false} LeadingSpaceSpec(s: string)
    ensures var n := LeadingSpace(s);
      AllSpace(s[..n]) && (n < |s| ==> !IsSpace(s[n]))
  {
    if s != [] && IsSpace(s[0]) {
      LeadingSpaceSpec(s[1..]);
      var n := LeadingSpace(s[1..]);
      assert s[..n + 1] == [s[0]] + s[1..][..n];
    }
  }

  /** The number of whitespace characters `s` ends with. */
  function TrailingSpace(s: string): (n: nat)
    ensures n <= |s|
  {
    if s != [] && IsSpace(s[|s| - 1]) then 1 + TrailingSpace(s[..|s| - 1]) else 0
  }

  /** The trailing run is all whitespace and stops at the last other character. */
  lemma {:induction false} TrailingSpaceSpec(s: string)
    ensures var n := TrailingSpace(s);
      AllSpace(s[|s| - n..]) && (n < |s| ==> !IsSpace(s[|s| - n - 1]))
  {
    if s != [] && IsSpace(s[|s| - 1]) {
      var front := s[..|s| - 1];
      TrailingSpaceSpec(front);
      var n := TrailingSpace(front);
      assert s[|s| - (n + 1)..] == front[|front| - n..] + [s[|s| - 1]];
    }
  }

  /** `s` without its leading whitespace (also the regex `^\s*` replaced by ''). */
  function TrimStart(s: string): string {
    s[LeadingSpace(s)..]
  }

  /** `s` without its trailing whitespace. */
  function TrimEnd(s: string): string {
    s[..|s| - TrailingSpace(s)]
  }

  /** JavaScript's `String.prototype.trim`. */
  function Trim(s: string): string {
    TrimEnd(TrimStart(s))
  }

  /** `TrimStart` removes exactly a whitespace prefix, and what is left starts with another character. */
  lemma TrimStartSpec(s: string)
    ensures var r := TrimStart(s);
      && |r| <= |s| && r == s[|s| - |r|..]
      && AllSpace(s[..|s| - |r|])
      && (r == [] || !IsSpace(r[0]))
  {
    LeadingSpaceSpec(s);
  }

  /** Trimming the start of the suffix from `k` leaves a suffix of `t`; only whitespace is dropped before it. */
  lemma TrimStartFrom(t: string, k: nat)
    requires k <= |t|
    ensures var r := TrimStart(t[k..]);
      && |r| <= |t| - k && EndsWith(t, r)
      && AllSpace(t[k..|t| - |r|])
      && (r == [] || !IsSpace(r[0]))
  {
    var s := t[k..];
    TrimStartSpec(s);
    var r := TrimStart(s);
    assert s[..|s| - |r|] == t[k..|t| - |r|];
    assert t[|t| - |r|..] == s[|s| - |r|..];
  }

  /** `TrimEnd` removes exactly a whitespace suffix, and what is left ends with another character. */
  lemma TrimEndSpec(s: string)
    ensures var r := TrimEnd(s);
      && |r| <= |s| && r == s[..|r|]
      && AllSpace(s[|r|..])
      && (r == [] || !IsSpace(r[|r| - 1]))
  {
    TrailingSpaceSpec(s);
  }

  /** `trim` keeps a piece of `s` that has no whitespace at either end. */
  lemma TrimSpec(s: string)
    ensures var r := Trim(s);
      Contains(s, r) && (r == [] || (!IsSpace(r[0]) && !IsSpace(r[|r| - 1])))
  {
    var t := TrimStart(s);
    var r := TrimEnd(t);
    TrimStartSpec(s);
    TrimEndSpec(t);
    if r != [] {
      assert r[0] == t[0];
    }
    assert OccursAt(s, r, |s| - |t|) by {
      assert s[|s| - |t|..|s| - |t| + |r|] == t[..|r|];
    }
    OccursContains(s, r, |s| - |t|);
  }

  // ---------------------------------------------------------------------------
  // Case mapping
  // ---------------------------------------------------------------------------

  function LowerChar(c: char): char {
    if 'A' <= c <= 'Z' then (c as int + 32) as char else c
  }

  function UpperChar(c: char): char {
    if 'a' <= c <= 'z' then (c as int - 32) as char else c
  }

  /** `toLowerCase` on ASCII letters; every other character is kept. */
  function ToLower(s: string): (r: string)
    ensures |r| == |s|
  {
    if s == [] then [] else [LowerChar(s[0])] + ToLower(s[1..])
  }

  /** `toUpperCase` on ASCII letters; every other character is kept. */
  function ToUpper(s: string): (r: string)
    ensures |r| == |s|
  {
    if s == [] then [] else [UpperChar(s[0])] + ToUpper(s[1..])
  }

  /** Lower-casing maps each character on its own. */
  lemma {:induction false} ToLowerAt(s: string, i: int)
    requires 0 <= i < |s|
    ensures ToLower(s)[i] == LowerChar(s[i])
  {
    if i > 0 {
      ToLowerAt(s[1..], i - 1);
    }
  }

  /** Upper-casing maps each character on its own. */
  lemma {:induction false} ToUpperAt(s: string, i: int)
    requires 0 <= i < |s|
    ensures ToUpper(s)[i] == UpperChar(s[i])
  {
    if i > 0 {
      ToUpperAt(s[1..], i - 1);
    }
  }

  /** Case mapping neither adds nor removes a line break. */
  lemma CaseMappingKeepsNewlines(s: string)
    requires '\n' !in s
    ensures '\n' !in ToLower(s) && '\n' !in ToUpper(s)
  {
    forall i | 0 <= i < |s| ensures ToLower(s)[i] != '\n' && ToUpper(s)[i] != '\n' {
      ToLowerAt(s, i);
      ToUpperAt(s, i);
      assert s[i] != '\n';
    }
  }

  /** Lower-casing forgets the case a string was written in. */
  lemma {:induction false} LowerOfUpper(s: string)
    ensures ToLower(ToUpper(s)) == ToLower(s)
  {
    if s != [] {
      LowerOfUpper(s[1..]);
      assert ToUpper(s)[1..] == ToUpper(s[1..]);
    }
  }

  /** Case mapping works piece by piece. */
  lemma {:induction false} ToUpperAppend(a: string, b: string)
    ensures ToUpper(a + b) == ToUpper(a) + ToUpper(b)
  {
    if a != [] {
      ToUpperAppend(a[1..], b);
      AppendHeadTail(a, b);
      AppendAssoc([UpperChar(a[0])], ToUpper(a[1..]), ToUpper(b));
    } else {
      assert a + b == b;
    }
  }

  /** A string without capitals is its own lower-case form. */
  lemma {:induction false} ToLowerNoCapitals(s: string)
    requires forall i :: 0 <= i < |s| ==> !('A' <= s[i] <= 'Z')
    ensures ToLower(s) == s
  {
    if s != [] {
      ToLowerNoCapitals(s[1..]);
    }
  }

  // ---------------------------------------------------------------------------
  // Substrings
  // ---------------------------------------------------------------------------

  /** `s.includes(sub)`: `s` starts with `sub`, or its tail contains it. */
  predicate Contains(s: string, sub: string)
    decreases |s|
  {
    StartsWith(s, sub) || (s != [] && Contains(s[1..], sub))
  }

  /** `sub` occurs in `s` starting at index `i`. */
  predicate OccursAt(s: string, sub: string, i: int) {
    0 <= i <= |s| - |sub| && s[i..i + |sub|] == sub
  }

  predicate StartsWith(s: string, prefix: string) {
    |prefix| <= |s| && s[..|prefix|] == prefix
  }

  predicate EndsWith(s: string, suffix: string) {
    |suffix| <= |s| && s[|s| - |suffix|..] == suffix
  }

  /** An occurrence at any position makes `s` contain `sub`. */
  lemma {:induction false} OccursContains(s: string, sub: string, i: int)
    requires OccursAt(s, sub, i)
    ensures Contains(s, sub)
    decreases i
  {
    if i == 0 {
      assert StartsWith(s, sub);
    } else {
      assert s[1..][i - 1..i - 1 + |sub|] == s[i..i + |sub|];
      OccursContains(s[1..], sub, i - 1);
    }
  }

  /** If `s` contains `sub`, then `sub` occurs in `s` at some position. */
  lemma {:induction false} ContainsOccurs(s: string, sub: string)
    requires Contains(s, sub)
    ensures exists i :: OccursAt(s, sub, i)
    decreases |s|
  {
    if StartsWith(s, sub) {
      assert OccursAt(s, sub, 0);
    } else {
      ContainsOccurs(s[1..], sub);
      var j :| OccursAt(s[1..], sub, j);
      assert s[1..][j..j + |sub|] == s[j + 1..j + 1 + |sub|];
      assert OccursAt(s, sub, j + 1);
    }
  }

  /** Containment is transitive: whatever occurs in a piece of `s` occurs in `s`. */
  lemma ContainsTransitive(s: string, mid: string, sub: string)
    requires Contains(s, mid) && Contains(mid, sub)
    ensures Contains(s, sub)
  {
    ContainsOccurs(s, mid);
    ContainsOccurs(mid, sub);
    var i :| OccursAt(s, mid, i);
    var j :| OccursAt(mid, sub, j);
    forall k | 0 <= k < |sub| ensures s[i + j + k] == sub[k] {
      assert sub[k] == mid[j + k] == s[i + j + k];
    }
    assert s[i + j..i + j + |sub|] == sub;
    OccursContains(s, sub, i + j);
  }

  /** A character absent from `s` is absent from every piece of `s`. */
  lemma ContainsKeepsAbsence(s: string, sub: string, c: char)
    requires Contains(s, sub) && c !in s
    ensures c !in sub
  {
    ContainsOccurs(s, sub);
    var i :| OccursAt(s, sub, i);
  }

  /** Every suffix of `s` is a piece of `s`. */
  lemma SuffixContained(s: string, k: nat)
    requires k <= |s|
    ensures Contains(s, s[k..])
  {
    assert s[k..k + |s[k..]|] == s[k..];
    OccursContains(s, s[k..], k);
  }

  // ---------------------------------------------------------------------------
  // Decimal digits
  // ---------------------------------------------------------------------------

  predicate IsDigit(c: char) {
    '0' <= c <= '9'
  }

  predicate AllDigits(s: string) {
    forall i :: 0 <= i < |s| ==> IsDigit(s[i])
  }

  predicate NoDigits(s: string) {
    forall i :: 0 <= i < |s| ==> !IsDigit(s[i])
  }

  /** The value of a decimal digit character. */
  function DigitValue(c: char): nat {
    if IsDigit(c) then c as int - '0' as int else 0
  }

  function DigitChar(d: nat): char
    requires d < 10
  {
    ('0' as int + d) as char
  }

  /** The length of the longest prefix of `s` made of digits. */
  function DigitRunLength(s: string): (n: nat)
    ensures n <= |s|
  {
    if s != [] && IsDigit(s[0]) then 1 + DigitRunLength(s[1..]) else 0
  }

  /** The digit run is all digits and stops at the first other character. */
  lemma {:induction false} DigitRunLengthSpec(s: string)
    ensures var n := DigitRunLength(s);
      AllDigits(s[..n]) && (n < |s| ==> !IsDigit(s[n]))
  {
    if s != [] && IsDigit(s[0]) {
      DigitRunLengthSpec(s[1..]);
      var n := DigitRunLength(s[1..]);
      assert s[..n + 1] == [s[0]] + s[1..][..n];
    }
  }

  /** The number a string of decimal digits denotes (`parseInt` on `\d+`). */
  function DecimalValue(ds: string): nat {
    if ds == [] then 0 else 10 * DecimalValue(ds[..|ds| - 1]) + DigitValue(ds[|ds| - 1])
  }

  /**
   * `s.match(/(\d+)/)` followed by `parseInt(match[1])`: the value of the
   * first maximal run of digits in `s`, or None when `s` has no digit.
   */
  function FirstDigitRun(s: string): Option<nat> {
    if s == [] then None
    else if IsDigit(s[0]) then Some(DecimalValue(s[..DigitRunLength(s)]))
    else FirstDigitRun(s[1..])
  }

  /** The regex fails to match exactly when `s` has no digit. */
  lemma {:induction false} FirstDigitRunNone(s: string)
    ensures FirstDigitRun(s).None? <==> NoDigits(s)
  {
    if s != [] && !IsDigit(s[0]) {
      FirstDigitRunNone(s[1..]);
      assert forall k :: 1 <= k < |s| ==> s[k] == s[1..][k - 1];
    }
  }

  /**
   * When the first digit of `s` is at index `i`, the match is the maximal
   * digit run starting there.
   */
  lemma {:induction false} FirstDigitRunAt(s: string, i: nat)
    requires i < |s| && IsDigit(s[i]) && NoDigits(s[..i])
    ensures FirstDigitRun(s) == Some(DecimalValue(s[i..][..DigitRunLength(s[i..])]))
  {
    if i > 0 {
      assert !IsDigit(s[..i][0]);
      assert s[1..][..i - 1] == s[1..i];
      assert s[1..][i - 1..] == s[i..];
      FirstDigitRunAt(s[1..], i - 1);
    }
  }

  /** How a number is written in a template string: decimal digits, no leading zeros. */
  function NatToString(n: nat): (r: string)
    ensures |r| >= 1
  {
    if n < 10 then [DigitChar(n)] else NatToString(n / 10) + [DigitChar(n % 10)]
  }

  /** A rendered number is made of digits only. */
  lemma {:induction false} NatToStringDigits(n: nat)
    ensures AllDigits(NatToString(n))
  {
    if n >= 10 {
      NatToStringDigits(n / 10);
    }
  }

  /** How an integer is written in a template string: a minus sign for negatives. */
  function IntToString(i: int): string {
    if i < 0 then "-" + NatToString(-i) else NatToString(i)
  }

  /** A rendered integer holds no line break, and a non-negative one only digits. */
  lemma IntToStringChars(i: int)
    ensures '\n' !in IntToString(i)
    ensures i >= 0 ==> AllDigits(IntToString(i))
  {
    var r := IntToString(i);
    NatToStringDigits(if i < 0 then -i else i);
    assert forall k :: 0 <= k < |r| ==> r[k] == '-' || IsDigit(r[k]);
  }

  /** Reading back the digits of a rendered number gives the number. */
  lemma {:induction false} NatToStringRoundTrip(n: nat)
    ensures DecimalValue(NatToString(n)) == n
  {
    if n >= 10 {
      NatToStringRoundTrip(n / 10);
      var s := NatToString(n);
      assert s[..|s| - 1] == NatToString(n / 10);
    }
  }

  /** A rendered non-negative number is itself its first digit run. */
  lemma NatToStringFirstDigitRun(n: nat)
    ensures FirstDigitRun(NatToString(n)) == Some(n)
  {
    var s := NatToString(n);
    NatToStringRoundTrip(n);
    assert DigitRunLength(s) == |s| by {
      NatToStringDigits(n);
      AllDigitsRunLength(s);
    }
    assert s[..|s|] == s;
  }

  lemma {:induction false} AllDigitsRunLength(s: string)
    requires AllDigits(s)
    ensures DigitRunLength(s) == |s|
  {
    if s != [] {
      AllDigitsRunLength(s[1..]);
    }
  }

  /** A digit run followed by a non-digit ends where the digits do. */
  lemma {:induction false} DigitRunPrefix(ds: string, rest: string)
    requires AllDigits(ds)
    requires rest == [] || !IsDigit(rest[0])
    ensures DigitRunLength(ds + rest) == |ds|
  {
    if ds != [] {
      DigitRunPrefix(ds[1..], rest);
      assert (ds + rest)[1..] == ds[1..] + rest;
    } else {
      assert ds + rest == rest;
    }
  }

  /** The digit run of digits followed by a non-digit denotes the digits' value. */
  lemma DigitPrefixValue(ds: string, rest: string)
    requires AllDigits(ds)
    requires rest == [] || !IsDigit(rest[0])
    ensures var t := ds + rest; t[..DigitRunLength(t)] == ds
  {
    DigitRunPrefix(ds, rest);
    assert (ds + rest)[..|ds|] == ds;
  }

  /**
   * A rendered number after a digit-free prefix and before a non-digit is
   * what `match(/(\d+)/)` reads back.
   */
  lemma NatToStringReadBack(prefix: string, n: nat, suffix: string)
    requires NoDigits(prefix)
    requires suffix == [] || !IsDigit(suffix[0])
    ensures FirstDigitRun(prefix + NatToString(n) + suffix) == Some(n)
  {
    var ds := NatToString(n);
    var s := prefix + ds + suffix;
    NatToStringDigits(n);
    AppendAssoc(prefix, ds, suffix);
    DropAppend(prefix, ds + suffix);
    assert s[..|prefix|] == prefix;
    assert IsDigit(s[|prefix|]) by {
      assert s[|prefix|] == (ds + suffix)[0] == ds[0];
    }
    FirstDigitRunAt(s, |prefix|);
    DigitPrefixValue(ds, suffix);
    NatToStringRoundTrip(n);
  }

  // ---------------------------------------------------------------------------
  // Splitting and joining
  // ---------------------------------------------------------------------------

  /**
   * `s.split(sep)` for a one-character separator: the pieces between
   * separators, in order; the empty string splits into one empty piece.
   */
  function Split(s: string, sep: char): (parts: seq<string>)
    ensures |parts| >= 1
  {
    if s == [] then [""]
    else
      var rest := Split(s[1..], sep);
      if s[0] == sep then [""] + rest else [[s[0]] + rest[0]] + rest[1..]
  }

  /** No piece of a split contains the separator. */
  lemma {:induction false} SplitPiecesLackSeparator(s: string, sep: char)
    ensures forall k :: 0 <= k < |Split(s, sep)| ==> sep !in Split(s, sep)[k]
  {
    if s != [] {
      SplitPiecesLackSeparator(s[1..], sep);
      var rest := Split(s[1..], sep);
      if s[0] != sep {
        assert sep !in [s[0]] + rest[0];
      }
    }
  }

  /** `parts.join(sep)`. */
  function Join(parts: seq<string>, sep: char): string {
    if parts == [] then ""
    else if |parts| == 1 then parts[0]
    else Join(parts[..|parts| - 1], sep) + [sep] + parts[|parts| - 1]
  }

  lemma {:induction false} JoinCons(x: string, rest: seq<string>, sep: char)
    requires |rest| >= 1
    ensures Join([x] + rest, sep) == x + [sep] + Join(rest, sep)
  {
    if |rest| > 1 {
      var front := rest[..|rest| - 1];
      JoinCons(x, front, sep);
      assert ([x] + rest)[..|rest|] == [x] + front;
    }
  }

  /** How `Split` treats the first character of its input. */
  lemma SplitCons(c: char, s: string, sep: char)
    ensures var rest := Split(s, sep);
      Split([c] + s, sep) == if c == sep then [""] + rest else [[c] + rest[0]] + rest[1..]
  {
    assert ([c] + s)[1..] == s;
  }

  /** Joining the pieces with the separator gives back the string that was split. */
  lemma {:induction false} JoinSplit(s: string, sep: char)
    ensures Join(Split(s, sep), sep) == s
  {
    if s != [] {
      assert s == [s[0]] + s[1..];
      JoinSplit(s[1..], sep);
      JoinSplitCons(s[0], s[1..], sep);
    }
  }

  /** The inductive step of `JoinSplit`: one more character in front. */
  lemma JoinSplitCons(c: char, t: string, sep: char)
    requires Join(Split(t, sep), sep) == t
    ensures Join(Split([c] + t, sep), sep) == [c] + t
  {
    var rest := Split(t, sep);
    SplitCons(c, t, sep);
    if c == sep {
      JoinCons("", rest, sep);
      assert "" + [sep] == [c];
    } else if |rest| == 1 {
      assert rest == [rest[0]];
    } else {
      var tail := rest[1..];
      assert [rest[0]] + tail == rest;
      JoinCons([c] + rest[0], tail, sep);
      JoinCons(rest[0], tail, sep);
      AppendAssoc([c], rest[0], [sep]);
      AppendAssoc([c], rest[0] + [sep], Join(tail, sep));
    }
  }

  lemma {:induction false} SplitSeparatorFree(p: string, sep: char)
    requires sep !in p
    ensures Split(p, sep) == [p]
  {
    if p != [] {
      assert sep !in p[1..];
      SplitSeparatorFree(p[1..], sep);
      assert p[0] != sep;
      assert [p[0]] + p[1..] == p;
    }
  }

  lemma AppendAssoc<T>(a: seq<T>, b: seq<T>, c: seq<T>)
    ensures (a + b) + c == a + (b + c)
  {
  }

  lemma DropAppend<T>(a: seq<T>, b: seq<T>)
    ensures (a + b)[|a|..] == b
  {
  }

  lemma SnocSlices<T>(xs: seq<T>, x: T, i: nat)
    requires i <= |xs|
    ensures (xs + [x])[..i] == xs[..i] && (xs + [x])[i..] == xs[i..] + [x]
  {
  }

  lemma AppendHeadTail<T>(a: seq<T>, b: seq<T>)
    requires |a| >= 1
    ensures (a + b)[0] == a[0] && (a + b)[1..] == a[1..] + b
  {
  }

  /** The inductive step of `SplitAtSeparator`: one more character in front. */
  lemma SplitAtSeparatorCons(c: char, x: string, y: string, sep: char)
    requires Split(x + [sep] + y, sep) == Split(x, sep) + Split(y, sep)
    ensures Split([c] + x + [sep] + y, sep) == Split([c] + x, sep) + Split(y, sep)
  {
    var w := x + [sep] + y;
    AppendAssoc([c], x, [sep]);
    AppendAssoc([c], x + [sep], y);
    SplitCons(c, w, sep);
    SplitCons(c, x, sep);
    var px := Split(x, sep);
    var sy := Split(y, sep);
    if c == sep {
      AppendAssoc([""], px, sy);
    } else {
      AppendHeadTail(px, sy);
      AppendAssoc([[c] + px[0]], px[1..], sy);
    }
  }

  /** A separator between two strings separates their pieces. */
  lemma {:induction false} SplitAtSeparator(x: string, y: string, sep: char)
    ensures Split(x + [sep] + y, sep) == Split(x, sep) + Split(y, sep)
  {
    if x == [] {
      assert x + [sep] + y == [sep] + y;
      SplitCons(sep, y, sep);
    } else {
      assert x == [x[0]] + x[1..];
      SplitAtSeparator(x[1..], y, sep);
      SplitAtSeparatorCons(x[0], x[1..], y, sep);
    }
  }

  /** Splitting a join of separator-free pieces gives back the pieces. */
  lemma {:induction false} SplitJoin(parts: seq<string>, sep: char)
    requires |parts| >= 1
    requires forall k :: 0 <= k < |parts| ==> sep !in parts[k]
    ensures Split(Join(parts, sep), sep) == parts
  {
    if |parts| == 1 {
      SplitSeparatorFree(parts[0], sep);
    } else {
      var front := parts[..|parts| - 1];
      SplitJoin(front, sep);
      var last := parts[|parts| - 1];
      SplitSeparatorFree(last, sep);
      SplitAtSeparator(Join(front, sep), last, sep);
      assert front + [last] == parts;
    }
  }

  /** Lines each followed by a line break: what a chain of `content += line + '\n'` builds. */
  function JoinLines(lines: seq<string>): string {
    if lines == [] then "" else JoinLines(lines[..|lines| - 1]) + lines[|lines| - 1] + "\n"
  }

  /** One more line adds that line and its line break. */
  lemma JoinLinesSnoc(lines: seq<string>, line: string)
    ensures JoinLines(lines + [line]) == JoinLines(lines) + line + "\n"
  {
    assert (lines + [line])[..|lines|] == lines;
  }

  lemma {:induction false} JoinLinesAppend(a: seq<string>, b: seq<string>)
    ensures JoinLines(a + b) == JoinLines(a) + JoinLines(b)
  {
    if b != [] {
      var front := b[..|b| - 1];
      JoinLinesAppend(a, front);
      assert (a + b)[..|a + b| - 1] == a + front;
    } else {
      assert a + b == a;
    }
  }

  lemma {:induction false} JoinLinesAsJoin(lines: seq<string>)
    ensures JoinLines(lines) == Join(lines + [""], '\n')
  {
    if lines != [] {
      var front := lines[..|lines| - 1];
      JoinLinesAsJoin(front);
      var l := lines[|lines| - 1];
      assert (lines + [""])[..|lines|] == lines;
      assert lines[..|lines| - 1] == front;
      if front == [] {
        assert lines == [l];
      } else {
        assert (front + [""])[..|front|] == front;
        assert Join(lines, '\n') == Join(front, '\n') + "\n" + l;
      }
    }
  }

  /** Splitting the text at line breaks recovers the lines, plus the empty piece after the last break. */
  lemma SplitJoinLines(lines: seq<string>)
    requires forall k :: 0 <= k < |lines| ==> '\n' !in lines[k]
    ensures Split(JoinLines(lines), '\n') == lines + [""]
  {
    JoinLinesAsJoin(lines);
    SplitJoin(lines + [""], '\n');
  }

  // ---------------------------------------------------------------------------
  // Replacement
  // ---------------------------------------------------------------------------

  /** `s.replace(from, to)` with a one-character string pattern. */
  function ReplaceFirst(s: string, from: char, to: char): (r: string)
    ensures |r| == |s|
  {
    if s == [] then s
    else if s[0] == from then [to] + s[1..]
    else [s[0]] + ReplaceFirst(s[1..], from, to)
  }

  /** Only the first occurrence of `from` changes; a string without one is kept. */
  lemma {:induction false} ReplaceFirstAt(s: string, from: char, to: char, k: nat)
    requires k < |s| && s[k] == from && from !in s[..k]
    ensures ReplaceFirst(s, from, to) == s[..k] + [to] + s[k + 1..]
  {
    if k > 0 {
      assert s[..k][0] == s[0];
      assert s[1..][..k - 1] == s[1..k];
      ReplaceFirstAt(s[1..], from, to, k - 1);
      assert s[1..][k..] == s[k + 1..];
      assert s[..k] == [s[0]] + s[1..k];
    }
  }

  lemma {:induction false} ReplaceFirstAbsent(s: string, from: char, to: char)
    requires from !in s
    ensures ReplaceFirst(s, from, to) == s
  {
    if s != [] {
      ReplaceFirstAbsent(s[1..], from, to);
    }
  }
}
