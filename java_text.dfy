/**
 * The parts of java.lang.String and java.lang.Integer that the plugin's
 * parsers and formatters rely on, written out with Java's semantics:
 * `trim`, `isBlank`, `split(char)` with its trailing-empty rule,
 * `String.join`, `replace`, `Integer.parseInt` and `String.valueOf(int)`.
 * Case mapping is ASCII only (see README).
 */
module JavaText {
  import opened Wrappers

  const INT_MIN: int := -0x8000_0000
  const INT_MAX: int := 0x7FFF_FFFF

  /** A value a Java `int` can hold. */
  predicate IsInt32(n: int) { INT_MIN <= n <= INT_MAX }

  /** Java's `int`. */
  type Int32 = n: int | INT_MIN <= n <= INT_MAX

  /** Java `int` addition, which wraps around modulo 2^32. */
  function AddInt32(a: int, b: int): (r: int)
    requires IsInt32(a) && IsInt32(b)
    ensures IsInt32(r)
    ensures IsInt32(a + b) ==> r == a + b
    ensures a + b > INT_MAX ==> r == a + b - 0x1_0000_0000
    ensures a + b < INT_MIN ==> r == a + b + 0x1_0000_0000
  {
    var s := a + b;
    if s > INT_MAX then s - 0x1_0000_0000 else if s < INT_MIN then s + 0x1_0000_0000 else s
  }

  function Max(a: int, b: int): int { if a >= b then a else b }
  function Min(a: int, b: int): int { if a <= b then a else b }

  // ---------------------------------------------------------------- whitespace

  /** `Character.isWhitespace` for characters of the Basic Multilingual Plane. */
  predicate IsWhitespace(c: char) {
    c == ' ' || c == '\t' || c == '\n' || c == '\U{000B}' || c == '\U{000C}' || c == '\r'
    || ('\U{001C}' <= c <= '\U{001F}')
    || c == '\U{1680}' || ('\U{2000}' <= c <= '\U{2006}') || ('\U{2008}' <= c <= '\U{200A}')
    || c == '\U{2028}' || c == '\U{2029}' || c == '\U{205F}' || c == '\U{3000}'
  }

  /** `String.isBlank`: empty or only whitespace. */
  predicate IsBlank(s: string) {
    forall i :: 0 <= i < |s| ==> IsWhitespace(s[i])
  }

  /**
   * The first index at or after `i` whose character is above U+0020, or |s|:
   * the first loop of `String.trim`.
   */
  function TrimStartIndex(s: string, i: nat): (r: nat)
    requires i <= |s|
    ensures i <= r <= |s|
    ensures r < |s| ==> s[r] > ' '
    decreases |s| - i
  {
    if i < |s| && s[i] <= ' ' then TrimStartIndex(s, i + 1) else i
  }

  /** The second loop of `String.trim`: `len` moves down past trailing padding, never below `st`. */
  function TrimEndIndex(s: string, st: nat, len: nat): (r: nat)
    requires st <= len <= |s|
    ensures st <= r <= len
    ensures r > st ==> s[r - 1] > ' '
    decreases len
  {
    if st < len && s[len - 1] <= ' ' then TrimEndIndex(s, st, len - 1) else len
  }

  /** `String.trim`: drops every character up to U+0020 at both ends. */
  function Trim(s: string): (r: string)
    ensures |r| <= |s|
    ensures |r| > 0 ==> r[0] > ' ' && r[|r| - 1] > ' '
  {
    var st := TrimStartIndex(s, 0);
    s[st..TrimEndIndex(s, st, |s|)]
  }

  /** Everything the first loop skips is padding. */
  lemma {:induction false} TrimStartSkips(s: string, i: nat)
    requires i <= |s|
    ensures forall k :: i <= k < TrimStartIndex(s, i) ==> s[k] <= ' '
    decreases |s| - i
  {
    if i < |s| && s[i] <= ' ' {
      TrimStartSkips(s, i + 1);
    }
  }

  /** Everything the second loop skips is padding. */
  lemma {:induction false} TrimEndSkips(s: string, st: nat, len: nat)
    requires st <= len <= |s|
    ensures forall k :: TrimEndIndex(s, st, len) <= k < len ==> s[k] <= ' '
    decreases len
  {
    if st < len && s[len - 1] <= ' ' {
      TrimEndSkips(s, st, len - 1);
    }
  }

  /** The first loop stops at the first visible character after a run of padding. */
  lemma {:induction false} TrimStartAt(s: string, i: nat, j: nat)
    requires i <= j <= |s|
    requires forall k :: i <= k < j ==> s[k] <= ' '
    requires j == |s| || s[j] > ' '
    ensures TrimStartIndex(s, i) == j
    decreases j - i
  {
    if i < j {
      TrimStartAt(s, i + 1, j);
    }
  }

  /** The second loop stops after the last visible character before a run of padding. */
  lemma {:induction false} TrimEndAt(s: string, st: nat, len: nat, j: nat)
    requires st <= j <= len <= |s|
    requires forall k :: j <= k < len ==> s[k] <= ' '
    requires j == st || s[j - 1] > ' '
    ensures TrimEndIndex(s, st, len) == j
    decreases len
  {
    if j < len {
      TrimEndAt(s, st, len - 1, j);
    }
  }

  /** A string that starts and ends with a visible character is its own trim. */
  lemma TrimKeeps(s: string)
    requires |s| == 0 || (s[0] > ' ' && s[|s| - 1] > ' ')
    ensures Trim(s) == s
  {
  }

  /** Only characters that `trim` removes. */
  predicate IsTrimPad(w: string) {
    forall i :: 0 <= i < |w| ==> w[i] <= ' '
  }

  /** `trim` removes exactly the padding around a string with visible ends. */
  lemma TrimPadded(w1: string, s: string, w2: string)
    requires IsTrimPad(w1) && IsTrimPad(w2)
    requires |s| == 0 || (s[0] > ' ' && s[|s| - 1] > ' ')
    ensures Trim(w1 + s + w2) == s
  {
    var t := w1 + s + w2;
    if |s| == 0 {
      TrimStartAt(t, 0, |t|);
      TrimEndAt(t, |t|, |t|, |t|);
    } else {
      var e := |w1| + |s|;
      TrimStartAt(t, 0, |w1|);
      TrimEndAt(t, |w1|, |t|, e);
      assert t[|w1|..e] == s;
    }
  }

  /** A string whose trim is empty is padding throughout. */
  lemma TrimEmptyPad(s: string)
    requires Trim(s) == []
    ensures IsTrimPad(s)
  {
    var st := TrimStartIndex(s, 0);
    TrimStartSkips(s, 0);
    TrimEndSkips(s, st, |s|);
  }

  /** `trim().isEmpty()` holds exactly for padding. */
  lemma TrimEmptyIff(s: string)
    ensures Trim(s) == [] <==> IsTrimPad(s)
  {
    if Trim(s) == [] {
      TrimEmptyPad(s);
    }
    if IsTrimPad(s) {
      TrimPadded(s, [], []);
      assert s + [] + [] == s;
    }
  }

  /** The trim is a slice of the string. */
  lemma TrimSlice(s: string)
    ensures exists i, j :: 0 <= i <= j <= |s| && Trim(s) == s[i..j]
  {
    var st := TrimStartIndex(s, 0);
    assert Trim(s) == s[st..TrimEndIndex(s, st, |s|)];
  }

  /** A non-empty sequence is its front followed by its last element. */
  lemma FrontLast<T>(s: seq<T>)
    requires |s| > 0
    ensures s == s[..|s| - 1] + [s[|s| - 1]]
  {
  }

  // ---------------------------------------------------------------- case

  function UpperChar(c: char): char {
    if 'a' <= c <= 'z' then (c as int - 32) as char else c
  }

  function LowerChar(c: char): char {
    if 'A' <= c <= 'Z' then (c as int + 32) as char else c
  }

  /** `toUpperCase(Locale.ROOT)` restricted to ASCII letters. */
  function ToUpper(s: string): (r: string)
    ensures |r| == |s|
  {
    if s == [] then [] else [UpperChar(s[0])] + ToUpper(s[1..])
  }

  /** Upper-casing maps each character on its own. */
  lemma {:induction false} ToUpperAt(s: string)
    ensures forall i :: 0 <= i < |s| ==> ToUpper(s)[i] == UpperChar(s[i])
  {
    if s != [] {
      ToUpperAt(s[1..]);
    }
  }

  /** `toLowerCase(Locale.ROOT)` restricted to ASCII letters. */
  function ToLower(s: string): (r: string)
    ensures |r| == |s|
  {
    if s == [] then [] else [LowerChar(s[0])] + ToLower(s[1..])
  }

  /** Lower-casing maps each character on its own. */
  lemma {:induction false} ToLowerAt(s: string)
    ensures forall i :: 0 <= i < |s| ==> ToLower(s)[i] == LowerChar(s[i])
  {
    if s != [] {
      ToLowerAt(s[1..]);
    }
  }

  /** No lower-case ASCII letter: upper-casing changes nothing. */
  predicate IsUpperForm(s: string) {
    forall i :: 0 <= i < |s| ==> !('a' <= s[i] <= 'z')
  }

  lemma ToUpperKeeps(s: string)
    requires IsUpperForm(s)
    ensures ToUpper(s) == s
  {
    ToUpperAt(s);
    assert forall i :: 0 <= i < |s| ==> ToUpper(s)[i] == s[i];
  }

  /** `equalsIgnoreCase` on ASCII letters. */
  predicate EqualsIgnoreCase(a: string, b: string) {
    ToUpper(a) == ToUpper(b)
  }

  // ---------------------------------------------------------------- searching

  predicate StartsWith(s: string, prefix: string) {
    |prefix| <= |s| && s[..|prefix|] == prefix
  }

  predicate EndsWith(s: string, suffix: string) {
    |suffix| <= |s| && s[|s| - |suffix|..] == suffix
  }

  /** `String.contains`. */
  predicate Contains(s: string, sub: string)
    decreases |s|
  {
    StartsWith(s, sub) || (|s| > 0 && Contains(s[1..], sub))
  }

  /**
   * `String.replace(target, replacement)`: every occurrence of a non-empty
   * target, scanning left to right without overlaps.
   */
  function Replace(s: string, target: string, repl: string): string
    requires |target| > 0
    decreases |s|
  {
    if |s| < |target| then s
    else if s[..|target|] == target then repl + Replace(s[|target|..], target, repl)
    else [s[0]] + Replace(s[1..], target, repl)
  }

  /** `String.replace(char, char)`: every `a` becomes `b`. */
  function ReplaceChar(s: string, a: char, b: char): (r: string)
    ensures |r| == |s|
    ensures forall i :: 0 <= i < |s| ==> r[i] == (if s[i] == a then b else s[i])
  {
    seq(|s|, i requires 0 <= i < |s| => if s[i] == a then b else s[i])
  }

  /** With no occurrence of the target, replace returns its input. */
  lemma {:induction false} ReplaceAbsent(s: string, target: string, repl: string)
    requires |target| > 0 && !Contains(s, target)
    ensures Replace(s, target, repl) == s
    decreases |s|
  {
    if |s| >= |target| {
      assert !StartsWith(s, target);
      ReplaceAbsent(s[1..], target, repl);
      assert [s[0]] + s[1..] == s;
    }
  }

  /** An occurrence at a known position makes `contains` hold. */
  lemma {:induction false} ContainsAt(s: string, sub: string, i: nat)
    requires i + |sub| <= |s| && s[i..i + |sub|] == sub
    ensures Contains(s, sub)
    decreases i
  {
    if i > 0 {
      assert s[1..][i - 1..i - 1 + |sub|] == sub;
      ContainsAt(s[1..], sub, i - 1);
    }
  }

  // ---------------------------------------------------------------- ordering

  /**
   * `a.compareTo(b) < 0`: at the first differing position the character is
   * smaller, or `a` is a proper prefix of `b`.
   */
  predicate StrLess(a: string, b: string)
    decreases |a|
  {
    if a == [] then b != []
    else if b == [] then false
    else if a[0] != b[0] then a[0] < b[0]
    else StrLess(a[1..], b[1..])
  }

  lemma {:induction false} StrLessIrreflexive(a: string)
    ensures !StrLess(a, a)
    decreases |a|
  {
    if a != [] {
      StrLessIrreflexive(a[1..]);
    }
  }

  lemma {:induction false} StrLessTransitive(a: string, b: string, c: string)
    requires StrLess(a, b) && StrLess(b, c)
    ensures StrLess(a, c)
    decreases |a|
  {
    if a != [] && a[0] == b[0] && b[0] == c[0] {
      StrLessTransitive(a[1..], b[1..], c[1..]);
    }
  }

  // ---------------------------------------------------------------- split / join

  /** Every piece between separators, empty ones included. */
  function RawSplit(s: string, sep: char): (r: seq<string>)
    ensures |r| >= 1
    ensures forall i :: 0 <= i < |r| ==> sep !in r[i]
    decreases |s|
  {
    if |s| == 0 then [[]]
    else
      var rest := RawSplit(s[1..], sep);
      if s[0] == sep then [[]] + rest
      else [[s[0]] + rest[0]] + rest[1..]
  }

  function DropTrailingEmpty(r: seq<string>): (d: seq<string>)
    ensures |d| <= |r| && d == r[..|d|]
    ensures |d| > 0 ==> d[|d| - 1] != []
  {
    if |r| > 0 && r[|r| - 1] == [] then DropTrailingEmpty(r[..|r| - 1]) else r
  }

  /**
   * `String.split` on a one-character pattern with limit 0: a string without
   * the separator is returned whole (so "" gives [""]); otherwise it is cut at
   * every separator and trailing empty pieces are dropped.
   */
  function Split(s: string, sep: char): (r: seq<string>)
    ensures forall i :: 0 <= i < |r| ==> sep !in r[i]
    ensures sep !in s ==> r == [s]
  {
    if sep !in s then [s] else DropTrailingEmpty(RawSplit(s, sep))
  }

  /** `String.join` with a one-character delimiter. */
  function Join(parts: seq<string>, sep: char): string
  {
    if |parts| == 0 then []
    else if |parts| == 1 then parts[0]
    else parts[0] + [sep] + Join(parts[1..], sep)
  }

  /** Appending one more piece appends a separator and the piece. */
  lemma {:induction false} JoinSnoc(parts: seq<string>, p: string, sep: char)
    requires |parts| >= 1
    ensures Join(parts + [p], sep) == Join(parts, sep) + [sep] + p
    decreases |parts|
  {
    if |parts| == 1 {
      assert parts + [p] == [parts[0], p];
    } else {
      assert (parts + [p])[1..] == parts[1..] + [p];
      JoinSnoc(parts[1..], p, sep);
    }
  }

  /** A join starts with the first piece. */
  lemma {:induction false} JoinPrefix(parts: seq<string>, sep: char)
    requires |parts| >= 1
    ensures StartsWith(Join(parts, sep), parts[0])
  {
  }

  lemma {:induction false} RawSplitNoSep(a: string, sep: char)
    requires sep !in a
    ensures RawSplit(a, sep) == [a]
    decreases |a|
  {
    if |a| > 0 {
      RawSplitNoSep(a[1..], sep);
      assert [a[0]] + a[1..] == a;
    }
  }

  lemma {:induction false} RawSplitCons(a: string, sep: char, t: string)
    requires sep !in a
    ensures RawSplit(a + [sep] + t, sep) == [a] + RawSplit(t, sep)
    decreases |a|
  {
    var s := a + [sep] + t;
    if |a| == 0 {
      assert s[1..] == t;
    } else {
      assert s[1..] == a[1..] + [sep] + t;
      RawSplitCons(a[1..], sep, t);
      assert [a[0]] + a[1..] == a;
    }
  }

  lemma {:induction false} RawSplitJoin(parts: seq<string>, sep: char)
    requires |parts| >= 1
    requires forall i :: 0 <= i < |parts| ==> sep !in parts[i]
    ensures RawSplit(Join(parts, sep), sep) == parts
    decreases |parts|
  {
    if |parts| == 1 {
      RawSplitNoSep(parts[0], sep);
    } else {
      RawSplitJoin(parts[1..], sep);
      RawSplitCons(parts[0], sep, Join(parts[1..], sep));
      assert [parts[0]] + parts[1..] == parts;
    }
  }

  /**
   * Joining non-empty, separator-free pieces and splitting again gives the
   * pieces back.
   */
  lemma SplitJoin(parts: seq<string>, sep: char)
    requires |parts| >= 1
    requires forall i :: 0 <= i < |parts| ==> sep !in parts[i] && parts[i] != []
    ensures Split(Join(parts, sep), sep) == parts
  {
    var s := Join(parts, sep);
    RawSplitJoin(parts, sep);
    if |parts| > 1 {
      assert s == parts[0] + [sep] + Join(parts[1..], sep);
      assert s[|parts[0]|] == sep;
    }
  }

  // ---------------------------------------------------------------- integers

  predicate IsDigit(c: char) { '0' <= c <= '9' }

  predicate AllDigits(s: string) {
    forall i :: 0 <= i < |s| ==> IsDigit(s[i])
  }

  function DigitsValue(s: string): nat
    requires AllDigits(s)
  {
    if |s| == 0 then 0
    else DigitsValue(s[..|s| - 1]) * 10 + (s[|s| - 1] as int - '0' as int)
  }

  /**
   * `Integer.parseInt(s)` (radix 10): an optional sign, then one or more
   * ASCII digits, with a value inside the `int` range; None stands for the
   * NumberFormatException.
   */
  function ParseInt(s: string): (r: Option<int>)
    ensures r.Some? ==> IsInt32(r.value)
    ensures s == [] ==> r == None
  {
    if |s| == 0 then None
    else
      var start := if s[0] == '-' || s[0] == '+' then 1 else 0;
      var digits := s[start..];
      if |digits| == 0 || !AllDigits(digits) then None
      else
        var v := if s[0] == '-' then -(DigitsValue(digits) as int) else DigitsValue(digits);
        if IsInt32(v) then Some(v) else None
  }

  function DigitChar(d: nat): char
    requires d < 10
  {
    ('0' as int + d) as char
  }

  function NatDigits(n: nat): (s: string)
    ensures |s| >= 1
    ensures AllDigits(s)
  {
    if n < 10 then [DigitChar(n)] else NatDigits(n / 10) + [DigitChar(n % 10)]
  }

  /** `String.valueOf(int)` / string concatenation of an int. */
  function IntToString(n: int): (s: string)
    ensures |s| >= 1
    ensures forall i :: 0 <= i < |s| ==> IsDigit(s[i]) || s[i] == '-'
    ensures IsDigit(s[|s| - 1])
  {
    var d := NatDigits(if n < 0 then -n else n);
    assert IsDigit(d[|d| - 1]);
    if n < 0 then "-" + d else d
  }

  lemma {:induction false} NatDigitsValue(n: nat)
    ensures DigitsValue(NatDigits(n)) == n
  {
    if n >= 10 {
      NatDigitsValue(n / 10);
      var s := NatDigits(n);
      assert s[..|s| - 1] == NatDigits(n / 10);
    }
  }

  /** parseInt reads back what String.valueOf wrote, for every `int`. */
  lemma ParseIntToString(n: int)
    requires IsInt32(n)
    ensures ParseInt(IntToString(n)) == Some(n)
  {
    var s := IntToString(n);
    if n < 0 {
      NatDigitsValue(-n);
      assert s[1..] == NatDigits(-n);
    } else {
      NatDigitsValue(n);
      assert s[0..] == s;
    }
  }

  // ---------------------------------------------------------------- lists

  /** `List.removeIf(p)`: the elements failing `p`, in their order. */
  function RemoveIf<T>(s: seq<T>, p: T -> bool): (r: seq<T>)
    ensures |r| <= |s|
    ensures forall k :: 0 <= k < |r| ==> !p(r[k]) && r[k] in s
  {
    if s == [] then [] else (if p(s[0]) then [] else [s[0]]) + RemoveIf(s[1..], p)
  }

  /** Removal works on each part of a concatenation separately. */
  lemma {:induction false} RemoveIfAppend<T>(a: seq<T>, b: seq<T>, p: T -> bool)
    ensures RemoveIf(a + b, p) == RemoveIf(a, p) + RemoveIf(b, p)
    decreases |a|
  {
    if a == [] {
      assert a + b == b;
    } else {
      assert (a + b)[0] == a[0] && (a + b)[1..] == a[1..] + b;
      RemoveIfAppend(a[1..], b, p);
    }
  }

  /** A list with nothing to remove is left as it is. */
  lemma {:induction false} RemoveIfNone<T>(s: seq<T>, p: T -> bool)
    requires forall k :: 0 <= k < |s| ==> !p(s[k])
    ensures RemoveIf(s, p) == s
    decreases |s|
  {
    if s != [] {
      RemoveIfNone(s[1..], p);
      assert [s[0]] + s[1..] == s;
    }
  }

  /** Every element that fails the test survives the removal. */
  lemma {:induction false} RemoveIfKeeps<T>(s: seq<T>, p: T -> bool, x: T)
    requires x in s && !p(x)
    ensures x in RemoveIf(s, p)
    decreases |s|
  {
    if s[0] != x {
      RemoveIfKeeps(s[1..], p, x);
    }
  }

  /** Removing twice removes nothing more. */
  lemma RemoveIfTwice<T>(s: seq<T>, p: T -> bool)
    ensures RemoveIf(RemoveIf(s, p), p) == RemoveIf(s, p)
  {
    RemoveIfNone(RemoveIf(s, p), p);
  }
}
