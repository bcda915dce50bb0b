/** The few Python `str` and `int` operations the bot's helpers rely on,
    stated on Dafny strings (sequences of Unicode code points, like Python's `str`). */
module PyStr {

  datatype Option<T> = None | Some(value: T)

  /** Python's `str.isspace()`: the characters `str.strip()` removes. */
  predicate IsSpace(c: char) {
    || c == ' '
    || '\t' <= c <= '\r'
    || '\U{1C}' <= c <= '\U{1F}'
    || c == '\U{85}' || c == '\U{A0}' || c == '\U{1680}'
    || '\U{2000}' <= c <= '\U{200A}'
    || c == '\U{2028}' || c == '\U{2029}' || c == '\U{202F}' || c == '\U{205F}' || c == '\U{3000}'
  }

  predicate IsDigit(c: char) {
    '0' <= c <= '9'
  }

  predicate AllDigits(s: string) {
    forall i :: 0 <= i < |s| ==> IsDigit(s[i])
  }

  // ---------------------------------------------------------------------------
  // Lower-casing

  /** The upper-case letters `Lower` maps: Latin A-Z and the Cyrillic capitals U+0400-U+042F. */
  predicate IsUpper(c: char) {
    'A' <= c <= 'Z' || '\U{0400}' <= c <= '\U{042F}'
  }

  function LowerChar(c: char): (d: char)
    ensures !IsUpper(d)
    ensures !IsUpper(c) ==> d == c
  {
    if 'A' <= c <= 'Z' || '\U{0410}' <= c <= '\U{042F}' then (c as int + 32) as char
    else if '\U{0400}' <= c <= '\U{040F}' then (c as int + 80) as char
    else c
  }

  /** `str.lower()` on the letters of `IsUpper`; every other character is kept. */
  function Lower(s: string): (r: string)
    ensures |r| == |s|
    ensures forall i :: 0 <= i < |s| ==> !IsUpper(r[i])
  {
    seq(|s|, i requires 0 <= i < |s| => LowerChar(s[i]))
  }

  /** A string without capitals is its own lower-case form. */
  lemma LowerFixed(s: string)
    requires forall i :: 0 <= i < |s| ==> !IsUpper(s[i])
    ensures Lower(s) == s
  {
  }

  lemma LowerIdempotent(s: string)
    ensures Lower(Lower(s)) == Lower(s)
  {
    LowerFixed(Lower(s));
  }

  // ---------------------------------------------------------------------------
  // Stripping whitespace

  /** `str.lstrip()`: drops the leading whitespace and keeps the rest. */
  function TrimStart(s: string): (r: string)
    ensures |r| <= |s|
    ensures r == [] || !IsSpace(r[0])
    decreases |s|
  {
    if s != [] && IsSpace(s[0]) then TrimStart(s[1..]) else s
  }

  /** What `lstrip()` drops is whitespace, and what it keeps is the input's tail. */
  lemma {:induction false} TrimStartSplits(s: string)
    ensures TrimStart(s) == s[|s| - |TrimStart(s)|..]
    ensures forall i :: 0 <= i < |s| - |TrimStart(s)| ==> IsSpace(s[i])
    decreases |s|
  {
    if s != [] && IsSpace(s[0]) {
      TrimStartSplits(s[1..]);
      forall i | 0 < i < |s| - |TrimStart(s)|
        ensures IsSpace(s[i])
      {
        assert s[i] == s[1..][i - 1];
      }
    }
  }

  /** `str.rstrip()`: drops the trailing whitespace and keeps the rest. */
  function TrimEnd(s: string): (r: string)
    ensures |r| <= |s|
    ensures r == [] || !IsSpace(r[|r| - 1])
    decreases |s|
  {
    if s != [] && IsSpace(s[|s| - 1]) then TrimEnd(s[..|s| - 1]) else s
  }

  /** What `rstrip()` keeps is the input's head, and what it drops is whitespace. */
  lemma {:induction false} TrimEndSplits(s: string)
    ensures TrimEnd(s) == s[..|TrimEnd(s)|]
    ensures forall i :: |TrimEnd(s)| <= i < |s| ==> IsSpace(s[i])
    decreases |s|
  {
    if s != [] && IsSpace(s[|s| - 1]) {
      TrimEndSplits(s[..|s| - 1]);
    }
  }

  /** `str.strip()`. */
  function Strip(s: string): string {
    TrimEnd(TrimStart(s))
  }

  /** `strip()` yields "" exactly for text made only of whitespace. */
  lemma StripBlank(s: string)
    ensures Strip(s) == [] <==> forall i :: 0 <= i < |s| ==> IsSpace(s[i])
  {
    var t := TrimStart(s);
    TrimStartSplits(s);
    TrimEndSplits(t);
    if Strip(s) == [] {
      // a non-empty `t` starts with a non-space, which `TrimEnd` keeps
      assert t == [];
    } else {
      assert t[0] == s[|s| - |t|] && !IsSpace(t[0]);
    }
  }

  /** Stripped text that is not empty starts and ends with a non-space character. */
  lemma StripEnds(s: string)
    ensures Strip(s) != [] ==> !IsSpace(Strip(s)[0]) && !IsSpace(Strip(s)[|Strip(s)| - 1])
  {
    var t := TrimStart(s);
    TrimEndSplits(t);
    if Strip(s) != [] {
      assert Strip(s)[0] == t[0];
    }
  }

  /** Stripping only removes characters: every character left is one of the input's. */
  lemma StripKeepsChars(s: string)
    ensures forall i :: 0 <= i < |Strip(s)| ==> Strip(s)[i] in s
  {
    var t := TrimStart(s);
    var r := Strip(s);
    TrimStartSplits(s);
    TrimEndSplits(t);
    forall i | 0 <= i < |r|
      ensures r[i] in s
    {
      assert r[i] == t[i] == s[|s| - |t| + i];
    }
  }

  /** Text without surrounding whitespace is left unchanged. */
  lemma StripFixed(s: string)
    ensures s == [] || (!IsSpace(s[0]) && !IsSpace(s[|s| - 1])) ==> Strip(s) == s
  {
  }

  /** Leading whitespace in front of text that starts with a non-space is all `lstrip()` removes. */
  lemma {:induction false} TrimStartPadded(before: string, x: string)
    requires forall k :: 0 <= k < |before| ==> IsSpace(before[k])
    requires x == [] || !IsSpace(x[0])
    ensures TrimStart(before + x) == x
    decreases |before|
  {
    if before == [] {
      assert before + x == x;
    } else {
      assert (before + x)[1..] == before[1..] + x;
      TrimStartPadded(before[1..], x);
    }
  }

  /** Trailing whitespace after text that ends with a non-space is all `rstrip()` removes. */
  lemma {:induction false} TrimEndPadded(x: string, after: string)
    requires forall k :: 0 <= k < |after| ==> IsSpace(after[k])
    requires x == [] || !IsSpace(x[|x| - 1])
    ensures TrimEnd(x + after) == x
    decreases |after|
  {
    if after == [] {
      assert x + after == x;
    } else {
      assert (x + after)[..|x + after| - 1] == x + after[..|after| - 1];
      TrimEndPadded(x, after[..|after| - 1]);
    }
  }

  /** Whitespace around already stripped text does not change what `strip()` returns. */
  lemma StripPadded(before: string, t: string, after: string)
    requires Strip(t) == t
    requires forall k :: 0 <= k < |before| ==> IsSpace(before[k])
    requires forall k :: 0 <= k < |after| ==> IsSpace(after[k])
    ensures Strip(before + t + after) == t
  {
    if t == [] {
      var s := before + t + after;
      assert forall k :: 0 <= k < |s| ==> IsSpace(s[k]) by {
        assert s == before + after;
      }
      StripBlank(s);
    } else {
      StripEnds(t);
      assert before + t + after == before + (t + after);
      TrimStartPadded(before, t + after);
      TrimEndPadded(t, after);
    }
  }

  /** `[x.strip() for x in xs]`. */
  function StripEach(xs: seq<string>): (r: seq<string>)
    ensures |r| == |xs|
    ensures forall i :: 0 <= i < |xs| ==> r[i] == Strip(xs[i])
  {
    if xs == [] then [] else [Strip(xs[0])] + StripEach(xs[1..])
  }

  // ---------------------------------------------------------------------------
  // Splitting on a separator and joining back

  /** Position of the first `c` in `s`. */
  function IndexOf(s: string, c: char): (k: nat)
    requires c in s
    ensures k < |s| && s[k] == c && c !in s[..k]
  {
    if s[0] == c then 0
    else
      var k := IndexOf(s[1..], c);
      assert s[..k + 1] == [s[0]] + s[1..][..k];
      k + 1
  }

  /** The first occurrence is the one with no earlier occurrence. */
  lemma IndexOfAt(s: string, c: char, k: int)
    requires 0 <= k < |s| && s[k] == c && c !in s[..k]
    ensures IndexOf(s, c) == k
  {
  }

  /** `s.split(sep)` for a one-character separator: the pieces between separators, empty ones included. */
  function Split(s: string, sep: char): (parts: seq<string>)
    ensures |parts| >= 1
    ensures forall i :: 0 <= i < |parts| ==> sep !in parts[i]
    decreases |s|
  {
    if sep !in s then [s]
    else
      var k := IndexOf(s, sep);
      [s[..k]] + Split(s[k + 1..], sep)
  }

  /** `sep.join(parts)`. */
  function Join(parts: seq<string>, sep: char): string {
    if parts == [] then ""
    else if |parts| == 1 then parts[0]
    else parts[0] + [sep] + Join(parts[1..], sep)
  }

  /** Joining the pieces of a split gives the original string back. */
  lemma {:induction false} JoinSplit(s: string, sep: char)
    ensures Join(Split(s, sep), sep) == s
    decreases |s|
  {
    if sep in s {
      var k := IndexOf(s, sep);
      var rest := s[k + 1..];
      assert s == s[..k] + [sep] + rest;
      SplitAfterField(s[..k], sep, rest);
      JoinCons(s[..k], Split(rest, sep), sep);
      JoinSplit(rest, sep);
    }
  }

  lemma JoinCons(head: string, parts: seq<string>, sep: char)
    requires |parts| >= 1
    ensures Join([head] + parts, sep) == head + [sep] + Join(parts, sep)
  {
    assert ([head] + parts)[1..] == parts;
  }

  /** Splitting text whose first field is `head` gives `head`, then the fields of the rest. */
  lemma SplitAfterField(head: string, sep: char, rest: string)
    requires sep !in head
    ensures Split(head + [sep] + rest, sep) == [head] + Split(rest, sep)
  {
    var s := head + [sep] + rest;
    assert s[..|head|] == head;
    IndexOfAt(s, sep, |head|);
    assert s[|head| + 1..] == rest;
  }

  /** Every character of a piece of a split is a character of the text. */
  lemma {:induction false} SplitPartChars(s: string, sep: char, i: int, k: int)
    requires 0 <= i < |Split(s, sep)| && 0 <= k < |Split(s, sep)[i]|
    ensures Split(s, sep)[i][k] in s
    decreases |s|
  {
    if sep in s {
      var j := IndexOf(s, sep);
      var rest := s[j + 1..];
      if i == 0 {
        assert s[..j][k] == s[k];
      } else {
        assert Split(s, sep)[i] == Split(rest, sep)[i - 1];
        SplitPartChars(rest, sep, i - 1, k);
        var c := Split(rest, sep)[i - 1][k];
        var m :| 0 <= m < |rest| && rest[m] == c;
        assert s[j + 1 + m] == c;
      }
    }
  }

  /** Splitting a join of separator-free pieces gives the pieces back. */
  lemma {:induction false} SplitJoin(parts: seq<string>, sep: char)
    requires |parts| >= 1
    requires forall i :: 0 <= i < |parts| ==> sep !in parts[i]
    ensures Split(Join(parts, sep), sep) == parts
  {
    if |parts| > 1 {
      var s := Join(parts, sep);
      var p := parts[0];
      var rest := Join(parts[1..], sep);
      assert s == p + [sep] + rest;
      assert s[|p|] == sep;
      var k := IndexOf(s, sep);
      assert k == |p| by {
        assert forall j :: 0 <= j < |p| ==> s[j] == p[j];
      }
      assert s[..k] == p;
      assert s[k + 1..] == rest;
      SplitJoin(parts[1..], sep);
    }
  }

  /** The text before the first `sep`, or all of `s` when there is none. */
  function FirstField(s: string, sep: char): (r: string)
    ensures sep !in r
    ensures r <= s
  {
    if sep in s then s[..IndexOf(s, sep)] else s
  }

  lemma SplitFirst(s: string, sep: char)
    ensures Split(s, sep)[0] == FirstField(s, sep)
  {
  }

  // ---------------------------------------------------------------------------
  // Integers as decimal text: Python's str(n) and int(s)

  function DigitChar(d: nat): (c: char)
    requires d < 10
    ensures IsDigit(c)
  {
    ('0' as int + d) as char
  }

  function DigitValue(c: char): nat
    requires IsDigit(c)
  {
    c as int - '0' as int
  }

  /** `str(n)` for `n >= 0`: decimal digits without leading zeros. */
  function NatToString(n: nat): (s: string)
    ensures |s| >= 1 && AllDigits(s)
    ensures |s| > 1 ==> s[0] != '0'
  {
    if n < 10 then [DigitChar(n)] else NatToString(n / 10) + [DigitChar(n % 10)]
  }

  /** `str(i)`. */
  function IntToString(i: int): (s: string)
    ensures s != []
    ensures i < 0 <==> s[0] == '-'
    ensures forall k :: 0 < k < |s| ==> IsDigit(s[k])
    ensures IsDigit(s[|s| - 1])
  {
    if i < 0 then "-" + NatToString(-i) else NatToString(i)
  }

  /** The value of a string of decimal digits. */
  function DigitsValue(s: string): nat
    requires AllDigits(s)
  {
    if s == [] then 0 else DigitsValue(s[..|s| - 1]) * 10 + DigitValue(s[|s| - 1])
  }

  /** `int(s)` on ASCII decimal text: surrounding whitespace and one sign are allowed;
      `None` stands for the `ValueError` Python raises on anything else. */
  function ParseInt(s: string): Option<int> {
    var t := Strip(s);
    if t != [] && (t[0] == '-' || t[0] == '+') then
      var digits := t[1..];
      if digits != [] && AllDigits(digits) then
        var v: int := DigitsValue(digits);
        Some(if t[0] == '-' then -v else v)
      else None
    else if t != [] && AllDigits(t) then Some(DigitsValue(t))
    else None
  }

  lemma {:induction false} DigitsValueOfNat(n: nat)
    ensures DigitsValue(NatToString(n)) == n
  {
    if n >= 10 {
      var s := NatToString(n);
      assert s[..|s| - 1] == NatToString(n / 10);
      DigitsValueOfNat(n / 10);
    }
  }

  lemma DigitIsNotSpace(c: char)
    requires IsDigit(c) || c == '-'
    ensures !IsSpace(c)
  {
  }

  lemma StripOfIntText(i: int)
    ensures Strip(IntToString(i)) == IntToString(i)
  {
    var s := IntToString(i);
    DigitIsNotSpace(s[0]);
    DigitIsNotSpace(s[|s| - 1]);
  }

  /** `int(str(i)) == i`. */
  lemma ParseIntToString(i: int)
    ensures ParseInt(IntToString(i)) == Some(i)
  {
    var s := IntToString(i);
    StripOfIntText(i);
    if i < 0 {
      var n: nat := -i;
      assert s[1..] == NatToString(n);
      DigitsValueOfNat(n);
    } else {
      DigitsValueOfNat(i);
    }
  }

  /** Text without a single digit is never an integer. */
  lemma ParseIntNeedsDigit(s: string)
    requires forall k :: 0 <= k < |s| ==> !IsDigit(s[k])
    ensures ParseInt(s) == None
  {
    var t := Strip(s);
    StripKeepsChars(s);
    if t != [] {
      assert t[|t| - 1] in s;
    }
  }

  /** Text that parses as an integer holds a digit. */
  lemma ParseIntHasDigit(s: string)
    requires ParseInt(s).Some?
    ensures exists k :: 0 <= k < |s| && IsDigit(s[k])
  {
    if forall k :: 0 <= k < |s| ==> !IsDigit(s[k]) {
      ParseIntNeedsDigit(s);
    }
  }

  /** Distinct integers have distinct decimal texts. */
  lemma IntToStringInjective(a: int, b: int)
    requires IntToString(a) == IntToString(b)
    ensures a == b
  {
    ParseIntToString(a);
    ParseIntToString(b);
  }

  /** A character that is neither a digit nor a minus sign never occurs in `str(i)`,
      so such a character can separate an integer from its neighbours in callback data. */
  lemma SeparatorNotInIntText(i: int, sep: char)
    requires !IsDigit(sep) && sep != '-'
    ensures sep !in IntToString(i)
  {
    if i >= 0 {
      assert AllDigits(NatToString(i));
    } else {
      assert AllDigits(NatToString(-i));
    }
  }

  /** `m` sits between `a` and `t`, and cutting it out leaves `a + t`. */
  lemma CutMiddle(a: string, m: string, t: string)
    ensures OccursAt(a + m + t, m, |a|)
    ensures (a + m + t)[..|a|] + (a + m + t)[|a| + |m|..] == a + t
  {
    var s := a + m + t;
    assert s[|a|..|a| + |m|] == m;
    assert s[..|a|] == a;
    assert s[|a| + |m|..] == t;
  }

  /** `t` appears in `s` starting at position `i`. */
  predicate OccursAt(s: string, t: string, i: int) {
    0 <= i && i + |t| <= |s| && s[i..i + |t|] == t
  }

  lemma OccursInConcat(a: string, t: string, b: string)
    ensures OccursAt(a + t + b, t, |a|)
  {
    assert (a + t + b)[|a|..|a| + |t|] == t;
  }

  lemma OccursAtStart(t: string, b: string)
    ensures OccursAt(t + b, t, 0)
  {
    assert (t + b)[..|t|] == t;
  }

  lemma OccursExtendRight(s: string, t: string, i: int, b: string)
    requires OccursAt(s, t, i)
    ensures OccursAt(s + b, t, i)
  {
    assert (s + b)[i..i + |t|] == s[i..i + |t|];
  }

  lemma OccursExtendLeft(a: string, s: string, t: string, i: int)
    requires OccursAt(s, t, i)
    ensures OccursAt(a + s, t, |a| + i)
  {
    assert (a + s)[|a| + i..|a| + i + |t|] == s[i..i + |t|];
  }

  // ---------------------------------------------------------------------------
  // Truncation with an ellipsis, character replacement, ordering

  /** `f"{s[:n]}{'...' if len(s) > n else ''}"`. */
  function Shorten(s: string, n: nat): (r: string)
    ensures |s| <= n ==> r == s
    ensures |s| > n ==> |r| == n + 3 && r[..n] == s[..n] && r[n..] == "..."
  {
    s[..if |s| <= n then |s| else n] + (if |s| > n then "..." else "")
  }

  /** `s.replace(a, b)` for single characters. */
  function ReplaceChar(s: string, a: char, b: char): (r: string)
    ensures |r| == |s|
    ensures a != b ==> a !in r
    ensures forall i :: 0 <= i < |s| && s[i] != a ==> r[i] == s[i]
  {
    seq(|s|, i requires 0 <= i < |s| => if s[i] == a then b else s[i])
  }

  /** Replacing back recovers a string that did not contain the replacement character. */
  lemma ReplaceCharBack(s: string, a: char, b: char)
    requires b !in s
    ensures ReplaceChar(ReplaceChar(s, a, b), b, a) == s
  {
  }

  /** Python's `<` on `str`: code-point lexicographic order. */
  predicate StrLess(a: string, b: string)
    decreases |a|
  {
    if a == [] then b != []
    else if b == [] then false
    else if a[0] != b[0] then a[0] < b[0]
    else StrLess(a[1..], b[1..])
  }

  lemma {:induction false} StrLessIrreflexive(a: string)
    ensures !StrLess(a, a)
    decreases |a|
  {
    if a != [] {
      StrLessIrreflexive(a[1..]);
    }
  }

  lemma {:induction false} StrLessTransitive(a: string, b: string, c: string)
    requires StrLess(a, b) && StrLess(b, c)
    ensures StrLess(a, c)
    decreases |a|
  {
    if a != [] && b != [] && c != [] && a[0] == b[0] && b[0] == c[0] {
      StrLessTransitive(a[1..], b[1..], c[1..]);
    }
  }

  lemma {:induction false} StrLessTotal(a: string, b: string)
    requires a != b
    ensures StrLess(a, b) || StrLess(b, a)
    decreases |a|
  {
    if a != [] && b != [] && a[0] == b[0] {
      assert a == [a[0]] + a[1..] && b == [b[0]] + b[1..];
      StrLessTotal(a[1..], b[1..]);
    }
  }
}
