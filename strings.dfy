/** The Python `str` operations the core relies on, on ASCII text:
    `lower()`, the `in` substring test, `strip()`, `split()` (as a word
    count), `' '.join(...)`, `replace(' ', '_')`, zero-padded decimal
    formatting and a decimal `int()` parse. */
module Strings {
  import opened Outcomes

  /** Python's `str.isspace()` restricted to ASCII, the characters `split()`
      and `strip()` treat as separators: space, tab, line feed, vertical tab,
      form feed, carriage return (9..13) and the separators 28..31. */
  predicate IsSpace(c: char) {
    c == ' ' || (9 <= c as int <= 13) || (28 <= c as int <= 31)
  }

  predicate IsUpper(c: char) { 'A' <= c <= 'Z' }

  predicate IsDigit(c: char) { '0' <= c <= '9' }

  function LowerChar(c: char): (r: char)
    ensures !IsUpper(r)
    ensures IsUpper(c) ==> r as int == c as int + 32
    ensures !IsUpper(c) ==> r == c
  {
    if IsUpper(c) then (c as int + 32) as char else c
  }

  /** `s.lower()` on ASCII: upper-case letters are mapped, everything else kept. */
  function Lower(s: string): (r: string)
    ensures |r| == |s|
    ensures forall i :: 0 <= i < |s| ==> r[i] == LowerChar(s[i])
  {
    if s == [] then [] else [LowerChar(s[0])] + Lower(s[1..])
  }

  /** Text without upper-case letters is its own lower-casing. */
  lemma LowerNoUpper(s: string)
    requires forall i :: 0 <= i < |s| ==> !IsUpper(s[i])
    ensures Lower(s) == s
  {
  }

  lemma LowerIdempotent(s: string)
    ensures Lower(Lower(s)) == Lower(s)
  {
  }

  /** Lowering works character by character, so it splits over `+`. */
  lemma LowerConcat(a: string, b: string)
    ensures Lower(a + b) == Lower(a) + Lower(b)
  {
    var x, y := Lower(a + b), Lower(a) + Lower(b);
    forall i | 0 <= i < |x|
      ensures x[i] == y[i]
    {
      if i < |a| {
        assert (a + b)[i] == a[i] && y[i] == Lower(a)[i];
      } else {
        assert (a + b)[i] == b[i - |a|] && y[i] == Lower(b)[i - |a|];
      }
    }
  }

  /** An occurrence stays an occurrence once both sides are lower-cased. */
  lemma LowerOccurrence(text: string, needle: string, o: int)
    requires OccursAt(text, needle, o)
    ensures OccursAt(Lower(text), Lower(needle), o)
  {
    LowerWindow(text, o, o + |needle|);
  }

  /** Lower-casing commutes with taking a window. */
  lemma LowerWindow(s: string, i: nat, j: nat)
    requires i <= j <= |s|
    ensures Lower(s)[i..j] == Lower(s[i..j])
  {
    var whole := Lower(s);
    var a := whole[i..j];
    var b := Lower(s[i..j]);
    forall k | 0 <= k < |a|
      ensures a[k] == b[k]
    {
      assert a[k] == whole[i + k] == LowerChar(s[i + k]);
      assert b[k] == LowerChar(s[i..j][k]);
    }
  }

  predicate StartsWith(s: string, prefix: string) {
    |prefix| <= |s| && s[..|prefix|] == prefix
  }

  predicate EndsWith(s: string, suffix: string) {
    |suffix| <= |s| && s[|s| - |suffix|..] == suffix
  }

  /** Python's `needle in text`: some window of `text` equals `needle`
      (the empty needle is in every text). */
  predicate Contains(text: string, needle: string)
    decreases |text|
  {
    StartsWith(text, needle) || (text != [] && Contains(text[1..], needle))
  }

  /** `needle` occurs in `text` starting at index `i`. */
  ghost predicate OccursAt(text: string, needle: string, i: int) {
    0 <= i && i + |needle| <= |text| && text[i..i + |needle|] == needle
  }

  /** The scan `Contains` finds exactly the occurrences. */
  lemma {:induction false} ContainsIff(text: string, needle: string)
    ensures Contains(text, needle) <==> exists i :: OccursAt(text, needle, i)
    decreases |text|
  {
    if StartsWith(text, needle) {
      assert OccursAt(text, needle, 0);
    } else if text == [] {
      assert needle != [];
    } else {
      ContainsIff(text[1..], needle);
      if Contains(text[1..], needle) {
        var i :| OccursAt(text[1..], needle, i);
        assert text[1..][i..i + |needle|] == text[i + 1..i + 1 + |needle|];
        assert OccursAt(text, needle, i + 1);
      }
      if exists i :: OccursAt(text, needle, i) {
        var i :| OccursAt(text, needle, i);
        assert i != 0;
        assert text[1..][i - 1..i - 1 + |needle|] == text[i..i + |needle|];
        assert OccursAt(text[1..], needle, i - 1);
      }
    }
  }

  /** A position where a contained needle occurs. */
  lemma OccurrenceOf(text: string, needle: string) returns (o: nat)
    requires Contains(text, needle)
    ensures OccursAt(text, needle, o)
  {
    ContainsIff(text, needle);
    o :| OccursAt(text, needle, o);
  }

  /** A needle is never longer than a text that contains it. */
  lemma ContainsNoLonger(text: string, needle: string)
    requires Contains(text, needle)
    ensures |needle| <= |text|
  {
    var o := OccurrenceOf(text, needle);
  }

  /** A text contains every window of itself. */
  lemma ContainsWindow(text: string, i: nat, j: nat)
    requires i <= j <= |text|
    ensures Contains(text, text[i..j])
  {
    assert OccursAt(text, text[i..j], i);
    ContainsIff(text, text[i..j]);
  }

  /** A needle inside the middle piece is inside the whole. */
  lemma ContainsInside(pre: string, mid: string, post: string, needle: string)
    requires Contains(mid, needle)
    ensures Contains(pre + mid + post, needle)
  {
    var o := OccurrenceOf(mid, needle);
    var text := pre + mid + post;
    assert text[|pre| + o..|pre| + o + |needle|] == mid[o..o + |needle|];
    ContainsWindow(text, |pre| + o, |pre| + o + |needle|);
  }

  /** `sep.join(parts)`. */
  function Join(sep: string, parts: seq<string>): string
  {
    if |parts| == 0 then ""
    else if |parts| == 1 then parts[0]
    else parts[0] + sep + Join(sep, parts[1..])
  }

  /** Joining one more part appends the separator and that part. */
  lemma {:induction false} JoinSnoc(sep: string, parts: seq<string>, last: string)
    requires parts != []
    ensures Join(sep, parts + [last]) == Join(sep, parts) + sep + last
    decreases |parts|
  {
    if |parts| == 1 {
      assert (parts + [last])[1..] == [last];
    } else {
      assert (parts + [last])[1..] == parts[1..] + [last];
      JoinSnoc(sep, parts[1..], last);
    }
  }

  /** Every part of a join is a window of it, so it is contained in it. */
  lemma {:induction false} JoinContainsPart(sep: string, parts: seq<string>, k: nat)
    requires k < |parts|
    ensures Contains(Join(sep, parts), parts[k])
    decreases |parts|
  {
    if |parts| == 1 {
      ContainsWindow(parts[0], 0, |parts[0]|);
      assert parts[0][0..|parts[0]|] == parts[0];
    } else if k == 0 {
      var j := Join(sep, parts);
      assert j[0..|parts[0]|] == parts[0];
      ContainsWindow(j, 0, |parts[0]|);
    } else {
      var rest := Join(sep, parts[1..]);
      JoinContainsPart(sep, parts[1..], k - 1);
      ContainsIff(rest, parts[k]);
      var i :| OccursAt(rest, parts[k], i);
      var j := Join(sep, parts);
      var off := |parts[0]| + |sep|;
      assert j == parts[0] + sep + rest;
      assert j[off + i..off + i + |parts[k]|] == rest[i..i + |parts[k]|];
      assert OccursAt(j, parts[k], off + i);
      ContainsIff(j, parts[k]);
    }
  }

  /** Index `i` starts a word: a non-space right after a space or the start. */
  predicate WordStartAt(s: string, i: nat)
    requires i < |s|
  {
    !IsSpace(s[i]) && (i == 0 || IsSpace(s[i - 1]))
  }

  /** `len(s.split())`: the number of maximal runs of non-space characters. */
  function WordCount(s: string): nat
    decreases |s|
  {
    if s == [] then 0
    else WordCount(s[..|s| - 1]) + (if WordStartAt(s, |s| - 1) then 1 else 0)
  }

  /** Text that ends in a space adds its words to whatever follows. */
  lemma {:induction false} WordCountAfterSpace(x: string, b: string)
    requires x != [] && IsSpace(x[|x| - 1])
    ensures WordCount(x + b) == WordCount(x) + WordCount(b)
    decreases |b|
  {
    if b == [] {
      assert x + b == x;
    } else {
      var b' := b[..|b| - 1];
      assert (x + b)[..|x + b| - 1] == x + b';
      WordCountAfterSpace(x, b');
      assert (x + b)[|x + b| - 1] == b[|b| - 1];
      if |b| > 1 {
        assert (x + b)[|x + b| - 2] == b[|b| - 2];
      } else {
        assert (x + b)[|x + b| - 2] == x[|x| - 1];
      }
    }
  }

  /** Joining with one space adds up the word counts of both sides: the
      separator never glues two words together. */
  lemma WordCountJoinSpace(a: string, b: string)
    ensures WordCount(a + " " + b) == WordCount(a) + WordCount(b)
  {
    var x := a + " ";
    assert x[..|x| - 1] == a;
    assert WordCount(x) == WordCount(a);
    WordCountAfterSpace(x, b);
  }

  /** Total word count of a list of texts. */
  function WordCountSum(parts: seq<string>): nat
  {
    if parts == [] then 0 else WordCountSum(parts[..|parts| - 1]) + WordCount(parts[|parts| - 1])
  }

  /** Counting the words of the space-joined text is counting each part's. */
  lemma {:induction false} WordCountJoin(parts: seq<string>)
    ensures WordCount(Join(" ", parts)) == WordCountSum(parts)
    decreases |parts|
  {
    if |parts| == 0 {
    } else if |parts| == 1 {
      assert parts[..0] == [];
    } else {
      var init := parts[..|parts| - 1];
      assert init + [parts[|parts| - 1]] == parts;
      JoinSnoc(" ", init, parts[|parts| - 1]);
      WordCountJoinSpace(Join(" ", init), parts[|parts| - 1]);
      WordCountJoin(init);
    }
  }

  /** `s.lstrip()`: a suffix of `s` that does not start with a space. */
  function StripLeft(s: string): (r: string)
    ensures |r| <= |s| && r == s[|s| - |r|..]
    ensures r != [] ==> !IsSpace(r[0])
    ensures forall i :: 0 <= i < |s| - |r| ==> IsSpace(s[i])
  {
    if s != [] && IsSpace(s[0]) then StripLeft(s[1..]) else s
  }

  /** `s.rstrip()`: a prefix of `s` that does not end with a space. */
  function StripRight(s: string): (r: string)
    ensures |r| <= |s| && r == s[..|r|]
    ensures r != [] ==> !IsSpace(r[|r| - 1])
    ensures forall i :: |r| <= i < |s| ==> IsSpace(s[i])
  {
    if s != [] && IsSpace(s[|s| - 1]) then StripRight(s[..|s| - 1]) else s
  }

  /** `s.strip()`: the window of `s` without its leading and trailing spaces. */
  function Strip(s: string): (r: string)
    ensures |r| <= |s|
    ensures r != [] ==> !IsSpace(r[0]) && !IsSpace(r[|r| - 1])
    ensures r == [] <==> forall i :: 0 <= i < |s| ==> IsSpace(s[i])
    ensures Contains(s, r)
    ensures exists i :: SpaceFramed(s, r, i)
  {
    var m := StripRight(s);
    var r := StripLeft(m);
    StripWindowAt(s, m, r);
    StripEnds(s, m, r);
    StripEmptyIff(s, m, r);
    StripFramed(s, m, r);
    ContainsWindow(s, |m| - |r|, |m|);
    r
  }

  /** `r` is the window of `s` at `i`, and everything of `s` outside the
      window is whitespace. */
  ghost predicate SpaceFramed(s: string, r: string, i: int) {
    && 0 <= i && i + |r| <= |s| && r == s[i..i + |r|]
    && (forall k :: 0 <= k < i ==> IsSpace(s[k]))
    && (forall k :: i + |r| <= k < |s| ==> IsSpace(s[k]))
  }

  /** Stripping both ends keeps a window `s[k..|m|]` of `s`. */
  lemma StripWindowAt(s: string, m: string, r: string)
    requires m == StripRight(s) && r == StripLeft(m)
    ensures r == s[|m| - |r|..|m|]
  {
    var k := |m| - |r|;
    assert r == m[k..];
    assert m == s[..|m|];
    forall i | 0 <= i < |r|
      ensures r[i] == s[k..|m|][i]
    {
      assert r[i] == m[k + i];
    }
  }

  /** What stripping both ends keeps does not start or end with a space. */
  lemma StripEnds(s: string, m: string, r: string)
    requires m == StripRight(s) && r == StripLeft(m)
    ensures r != [] ==> !IsSpace(r[0]) && !IsSpace(r[|r| - 1])
  {
    if r != [] {
      assert r[|r| - 1] == m[|m| - 1];
    }
  }

  /** Stripping both ends keeps nothing exactly when `s` is all spaces. */
  lemma StripEmptyIff(s: string, m: string, r: string)
    requires m == StripRight(s) && r == StripLeft(m)
    ensures r == [] <==> forall i :: 0 <= i < |s| ==> IsSpace(s[i])
  {
    if r == [] {
      forall i | 0 <= i < |s|
        ensures IsSpace(s[i])
      {
        if i < |m| {
          assert s[i] == s[..|m|][i];
        }
      }
    } else {
      StripWindowAt(s, m, r);
      assert s[|m| - |r|] == r[0];
    }
  }

  /** Everything stripping both ends removes is whitespace. */
  lemma StripFramed(s: string, m: string, r: string)
    requires m == StripRight(s) && r == StripLeft(m)
    ensures SpaceFramed(s, r, |m| - |r|)
  {
    StripWindowAt(s, m, r);
    forall i | 0 <= i < |m| - |r| ensures IsSpace(s[i]) {
      assert m[i] == s[..|m|][i];
    }
  }

  /** Text without whitespace is left as it is by stripping. */
  lemma StripNoSpace(s: string)
    requires forall i :: 0 <= i < |s| ==> !IsSpace(s[i])
    ensures Strip(s) == s
  {
    var r := Strip(s);
    var i :| SpaceFramed(s, r, i);
    if s != [] {
      assert !IsSpace(s[0]) && !IsSpace(s[|s| - 1]);
    }
    assert s[0..|s|] == s;
  }

  /** `s.replace(a, b)` for single characters. */
  function ReplaceChar(s: string, a: char, b: char): (r: string)
    ensures |r| == |s|
    ensures forall i :: 0 <= i < |s| ==> r[i] == (if s[i] == a then b else s[i])
  {
    if s == [] then [] else [if s[0] == a then b else s[0]] + ReplaceChar(s[1..], a, b)
  }

  /** The decimal digit for `d`. */
  function DigitChar(d: nat): (c: char)
    requires d < 10
    ensures IsDigit(c) && c as int - '0' as int == d
  {
    "0123456789"[d]
  }

  /** The decimal digits of `n`, most significant first, no leading zeros. */
  function Decimal(n: nat): (r: string)
    ensures r != [] && forall i :: 0 <= i < |r| ==> IsDigit(r[i])
    decreases n
  {
    if n < 10 then [DigitChar(n)] else Decimal(n / 10) + [DigitChar(n % 10)]
  }

  function Pow10(k: nat): nat { if k == 0 then 1 else 10 * Pow10(k - 1) }

  lemma {:induction false} DecimalLength(n: nat, k: nat)
    requires 1 <= k && n < Pow10(k)
    ensures |Decimal(n)| <= k
    decreases k
  {
    if n >= 10 {
      assert k >= 2;
      assert n / 10 < Pow10(k - 1);
      DecimalLength(n / 10, k - 1);
    }
  }

  /** `f"{n:0{width}d}"` for a non-negative `n`: decimal digits, zero-padded on
      the left to at least `width` characters. */
  function PadDecimal(n: nat, width: nat): (r: string)
    ensures forall i :: 0 <= i < |r| ==> IsDigit(r[i])
    ensures |r| >= width
  {
    var d := Decimal(n);
    if |d| < width then seq(width - |d|, _ => '0') + d else d
  }

  lemma PadDecimalExact(n: nat, width: nat)
    requires 1 <= width && n < Pow10(width)
    ensures |PadDecimal(n, width)| == width
  {
    DecimalLength(n, width);
  }

  /** The value of a non-empty run of decimal digits. */
  function DigitsValue(s: string): nat
    requires forall i :: 0 <= i < |s| ==> IsDigit(s[i])
    decreases |s|
  {
    if s == [] then 0
    else
      assert IsDigit(s[|s| - 1]);
      10 * DigitsValue(s[..|s| - 1]) + (s[|s| - 1] as int - '0' as int)
  }

  predicate AllDigits(s: string) {
    s != [] && forall i :: 0 <= i < |s| ==> IsDigit(s[i])
  }

  /** Python's `int(s)` on the decimal forms: surrounding spaces, an optional
      sign, then one or more ASCII digits. `None` stands for `ValueError`. */
  function ParseInt(s: string): (r: Option<int>)
    ensures r.Some? ==> Strip(s) != []
  {
    var t := Strip(s);
    if t != [] && (t[0] == '+' || t[0] == '-') then
      var body := t[1..];
      if AllDigits(body) then Some(if t[0] == '-' then -(DigitsValue(body) as int) else DigitsValue(body))
      else None
    else if AllDigits(t) then Some(DigitsValue(t))
    else None
  }

  /** Decimal formatting and parsing agree: `int(str(n)) == n`. */
  lemma ParseDecimal(n: nat)
    ensures ParseInt(Decimal(n)) == Some(n)
  {
    DecimalValue(n);
    ParseDigits(Decimal(n));
  }

  /** A run of digits parses as its value. */
  lemma ParseDigits(s: string)
    requires AllDigits(s)
    ensures ParseInt(s) == Some(DigitsValue(s))
  {
    assert forall i :: 0 <= i < |s| ==> !IsSpace(s[i]);
    StripNoSpace(s);
    assert s[0] != '+' && s[0] != '-';
  }

  lemma {:induction false} DecimalValue(n: nat)
    ensures DigitsValue(Decimal(n)) == n
    decreases n
  {
    if n >= 10 {
      var d := Decimal(n);
      assert d[..|d| - 1] == Decimal(n / 10);
      DecimalValue(n / 10);
    }
  }
}
