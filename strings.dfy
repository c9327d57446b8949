/**
 * The parts of Python 2's `str` that the modelled code relies on: character
 * classes, case mapping (ASCII, as Python 2 byte strings do), `strip`,
 * `split(sep)`, `split()`, `join`, `startswith`, decimal parsing and the
 * zero-padded `%4.4d` / `%2.2d` formats.
 */
module Strings {

  // ---------------------------------------------------------------------
  // Character classes (Python 2 byte-string semantics)

  predicate IsDigit(c: char) { '0' <= c <= '9' }

  predicate IsUpper(c: char) { 'A' <= c <= 'Z' }

  predicate IsLower(c: char) { 'a' <= c <= 'z' }

  /** `str.isspace` for one byte: space, \t, \n, \v, \f, \r. */
  predicate IsSpace(c: char) { c == ' ' || ('\t' <= c <= '\r') }

  function Lower(c: char): (r: char)
    ensures IsUpper(c) ==> IsLower(r)
    ensures !IsUpper(c) ==> r == c
  {
    if IsUpper(c) then (c as int + 32) as char else c
  }

  function Upper(c: char): (r: char)
    ensures IsLower(c) ==> IsUpper(r)
    ensures !IsLower(c) ==> r == c
  {
    if IsLower(c) then (c as int - 32) as char else c
  }

  /** `s.lower()` */
  function LowerStr(s: string): (r: string)
    ensures |r| == |s|
    ensures forall i :: 0 <= i < |s| ==> r[i] == Lower(s[i])
  {
    seq(|s|, i requires 0 <= i < |s| => Lower(s[i]))
  }

  /** `s.upper()` */
  function UpperStr(s: string): (r: string)
    ensures |r| == |s|
    ensures forall i :: 0 <= i < |s| ==> r[i] == Upper(s[i])
  {
    seq(|s|, i requires 0 <= i < |s| => Upper(s[i]))
  }

  /** `s.isdigit()`: non-empty and every char a decimal digit. */
  predicate IsDigits(s: string)
  {
    |s| > 0 && forall i :: 0 <= i < |s| ==> IsDigit(s[i])
  }

  predicate StartsWith(s: string, p: string) { |p| <= |s| && s[..|p|] == p }

  predicate EndsWith(s: string, p: string) { |p| <= |s| && s[|s| - |p|..] == p }

  // ---------------------------------------------------------------------
  // strip / lstrip

  /** Number of leading whitespace chars: `len(s) - len(s.lstrip())`. */
  function LeadingSpace(s: string): (n: nat)
    ensures n <= |s|
    ensures forall i :: 0 <= i < n ==> IsSpace(s[i])
    ensures n < |s| ==> !IsSpace(s[n])
  {
    if |s| == 0 || !IsSpace(s[0]) then 0 else 1 + LeadingSpace(s[1..])
  }

  function LStrip(s: string): (r: string)
    ensures r == s[LeadingSpace(s)..]
  {
    s[LeadingSpace(s)..]
  }

  function RStrip(s: string): (r: string)
    ensures r <= s
    ensures r == [] || !IsSpace(r[|r| - 1])
    ensures forall i :: |r| <= i < |s| ==> IsSpace(s[i])
  {
    if |s| == 0 || !IsSpace(s[|s| - 1]) then s else RStrip(s[..|s| - 1])
  }

  /** `s.strip()` */
  function Strip(s: string): (r: string)
    ensures r == [] || (!IsSpace(r[0]) && !IsSpace(r[|r| - 1]))
  {
    RStrip(LStrip(s))
  }

  /** A line is blank when `line.strip()` is empty. */
  predicate IsBlank(s: string) { forall i :: 0 <= i < |s| ==> IsSpace(s[i]) }

  lemma {:induction false} StripEmptyIffBlank(s: string)
    ensures Strip(s) == [] <==> IsBlank(s)
  {
    var n := LeadingSpace(s);
    if n < |s| {
      assert !IsSpace(s[n]);
      var t := s[n..];
      assert t[0] == s[n];
      RStripKeepsFirst(t);
    }
  }

  lemma {:induction false} RStripKeepsFirst(t: string)
    requires |t| > 0 && !IsSpace(t[0])
    ensures |RStrip(t)| > 0
  {
    if IsSpace(t[|t| - 1]) {
      assert |t| > 1;
      assert t[..|t| - 1][0] == t[0];
      RStripKeepsFirst(t[..|t| - 1]);
    }
  }

  // ---------------------------------------------------------------------
  // join and split on a single-character separator

  /** `sep.join(parts)` */
  function Join(parts: seq<string>, sep: string): (r: string)
    decreases |parts|
  {
    if |parts| == 0 then ""
    else if |parts| == 1 then parts[0]
    else parts[0] + sep + Join(parts[1..], sep)
  }

  /** The first j parts joined with a separator begin the join of all of them. */
  lemma {:induction false} JoinPrefix(parts: seq<string>, j: nat, sep: string)
    requires 1 <= j <= |parts|
    ensures StartsWith(Join(parts, sep), Join(parts[..j], sep))
    decreases j
  {
    if j == 1 {
      assert Join(parts[..1], sep) == parts[0];
    } else {
      assert parts[..j][1..] == parts[1..][..j - 1];
      JoinPrefix(parts[1..], j - 1, sep);
      assert Join(parts[..j], sep) == parts[0] + sep + Join(parts[1..][..j - 1], sep);
      assert Join(parts, sep) == parts[0] + sep + Join(parts[1..], sep);
    }
  }

  /** `''.join(parts)` */
  function Concat(parts: seq<string>): (r: string)
    decreases |parts|
  {
    if |parts| == 0 then "" else parts[0] + Concat(parts[1..])
  }

  lemma {:induction false} ConcatAppend(a: seq<string>, b: seq<string>)
    ensures Concat(a + b) == Concat(a) + Concat(b)
  {
    if |a| == 0 {
      assert a + b == b;
    } else {
      assert (a + b)[1..] == a[1..] + b;
      ConcatAppend(a[1..], b);
    }
  }

  /**
   * `s.split(sep)` for a one-character separator: the maximal pieces between
   * separators, always one more piece than there are separators.
   */
  function Split(s: string, sep: char): (parts: seq<string>)
    ensures |parts| >= 1
    decreases |s|
  {
    if |s| == 0 then [""]
    else
      var rest := Split(s[1..], sep);
      if s[0] == sep then [""] + rest else [[s[0]] + rest[0]] + rest[1..]
  }

  lemma {:induction false} SplitPiecesFree(s: string, sep: char)
    ensures forall i :: 0 <= i < |Split(s, sep)| ==> sep !in Split(s, sep)[i]
    decreases |s|
  {
    if |s| > 0 {
      SplitPiecesFree(s[1..], sep);
    }
  }

  /** Joining the pieces of `s.split(sep)` with `sep` gives back `s`. */
  lemma {:induction false} JoinSplit(s: string, sep: char)
    ensures Join(Split(s, sep), [sep]) == s
    decreases |s|
  {
    if |s| > 0 {
      var rest := Split(s[1..], sep);
      JoinSplit(s[1..], sep);
      if s[0] == sep {
        assert Split(s, sep) == [""] + rest;
        assert ([""] + rest)[1..] == rest;
      } else {
        var parts := [[s[0]] + rest[0]] + rest[1..];
        assert Split(s, sep) == parts;
        if |rest| == 1 {
          assert Join(rest, [sep]) == rest[0];
        } else {
          assert parts[1..] == rest[1..];
          assert Join(rest, [sep]) == rest[0] + [sep] + Join(rest[1..], [sep]);
        }
      }
    }
  }

  /** Splitting a `sep`-join of separator-free pieces gives back the pieces. */
  lemma {:induction false} SplitJoin(parts: seq<string>, sep: char)
    requires |parts| >= 1
    requires forall i :: 0 <= i < |parts| ==> sep !in parts[i]
    ensures Split(Join(parts, [sep]), sep) == parts
    decreases |parts|, |parts[0]|
  {
    if |parts[0]| > 0 {
      var p0 := parts[0];
      var tail := [p0[1..]] + parts[1..];
      assert Join(parts, [sep]) == [p0[0]] + Join(tail, [sep]) by {
        if |parts| == 1 {
          assert Join(tail, [sep]) == p0[1..];
        } else {
          assert tail[1..] == parts[1..];
          assert Join(tail, [sep]) == p0[1..] + [sep] + Join(parts[1..], [sep]);
        }
      }
      assert forall i :: 0 <= i < |tail| ==> sep !in tail[i] by {
        forall i | 0 <= i < |tail| ensures sep !in tail[i] {
          if i > 0 { assert tail[i] == parts[i]; }
          else {
            forall k | 0 <= k < |p0[1..]| ensures p0[1..][k] != sep {
              assert p0[1..][k] == p0[k + 1];
            }
          }
        }
      }
      SplitJoin(tail, sep);
      var s := Join(parts, [sep]);
      assert s[1..] == Join(tail, [sep]);
      assert s[0] == p0[0] && p0[0] != sep;
      assert [p0[0]] + p0[1..] == p0;
      assert [p0] + tail[1..] == parts;
    } else if |parts| > 1 {
      SplitJoin(parts[1..], sep);
      var s := Join(parts, [sep]);
      assert s == [sep] + Join(parts[1..], [sep]);
      assert s[1..] == Join(parts[1..], [sep]);
      assert [""] + parts[1..] == parts;
    }
  }

  /** The first piece of `s.split(sep)` is the text before the first `sep`. */
  lemma {:induction false} SplitHead(s: string, sep: char)
    ensures Split(s, sep)[0] <= s
    ensures sep !in s ==> Split(s, sep) == [s]
    ensures sep in s ==> |Split(s, sep)| >= 2 && |Split(s, sep)[0]| < |s| && s[|Split(s, sep)[0]|] == sep
    decreases |s|
  {
    if |s| > 0 {
      SplitHead(s[1..], sep);
      if s[0] != sep {
        assert sep in s ==> sep in s[1..];
        assert [s[0]] + s[1..] == s;
      }
    }
  }

  // ---------------------------------------------------------------------
  // split() on runs of whitespace

  /** `s.split()`: the maximal runs of non-whitespace, in order. */
  function SplitWs(s: string): (words: seq<string>)
    decreases |s|
  {
    var n := LeadingSpace(s);
    if n == |s| then []
    else
      var t := s[n..];
      var w := WordLen(t);
      [t[..w]] + SplitWs(t[w..])
  }

  /** Length of the leading run of non-whitespace. */
  function WordLen(s: string): (n: nat)
    ensures n <= |s|
    ensures forall i :: 0 <= i < n ==> !IsSpace(s[i])
    ensures n < |s| ==> IsSpace(s[n])
    ensures |s| > 0 && !IsSpace(s[0]) ==> n > 0
  {
    if |s| == 0 || IsSpace(s[0]) then 0 else 1 + WordLen(s[1..])
  }

  /** A non-empty string without whitespace. */
  predicate IsWord(w: string)
  {
    |w| > 0 && forall k :: 0 <= k < |w| ==> !IsSpace(w[k])
  }

  /** Whitespace-free, non-empty words joined by single spaces split back. */
  lemma {:induction false} SplitWsJoin(words: seq<string>)
    requires forall i :: 0 <= i < |words| ==> IsWord(words[i])
    ensures SplitWs(Join(words, " ")) == words
    decreases |words|
  {
    if |words| == 1 {
      assert Join(words, " ") == words[0] + [];
      SplitWsWord(words[0], []);
    } else if |words| > 1 {
      var tail := words[1..];
      var rest := Join(tail, " ");
      assert SplitWs(Join(words, " ")) == [words[0]] + SplitWs(rest) by {
        assert Join(words, " ") == words[0] + (" " + rest) by {
          assert Join(words, " ") == words[0] + " " + rest;
        }
        SplitWsWord(words[0], " " + rest);
        SplitWsLeadingSpace(rest);
      }
      assert SplitWs(rest) == tail by {
        assert forall i :: 0 <= i < |tail| ==> tail[i] == words[i + 1];
        SplitWsJoin(tail);
      }
      assert words == [words[0]] + tail;
    }
  }

  /** A word followed by nothing or by whitespace is split off whole. */
  lemma {:induction false} SplitWsWord(w: string, rest: string)
    requires |w| > 0 && forall k :: 0 <= k < |w| ==> !IsSpace(w[k])
    requires rest == [] || IsSpace(rest[0])
    ensures SplitWs(w + rest) == [w] + SplitWs(rest)
  {
    var s := w + rest;
    assert !IsSpace(s[0]);
    assert LeadingSpace(s) == 0;
    assert s[0..] == s;
    WordLenOf(s, |w|);
    assert s[..|w|] == w && s[|w|..] == rest;
  }

  lemma {:induction false} WordLenOf(s: string, n: nat)
    requires n <= |s|
    requires forall i :: 0 <= i < n ==> !IsSpace(s[i])
    requires n == |s| || IsSpace(s[n])
    ensures WordLen(s) == n
    decreases n
  {
    if n > 0 {
      WordLenOf(s[1..], n - 1);
    }
  }

  lemma {:induction false} SplitWsLeadingSpace(rest: string)
    ensures SplitWs(" " + rest) == SplitWs(rest)
  {
    var s := " " + rest;
    assert s[1..] == rest;
    assert LeadingSpace(s) == 1 + LeadingSpace(rest);
    assert s[LeadingSpace(s)..] == rest[LeadingSpace(rest)..];
  }

  lemma {:induction false} LeadingSpaceOf(s: string, n: nat)
    requires n <= |s|
    requires forall i :: 0 <= i < n ==> IsSpace(s[i])
    requires n == |s| || !IsSpace(s[n])
    ensures LeadingSpace(s) == n
    decreases n
  {
    if n > 0 {
      LeadingSpaceOf(s[1..], n - 1);
    }
  }

  /** Splitting at a blank: `(a + ' ' + b).split() == a.split() + b.split()`. */
  lemma {:induction false} SplitWsSpace(a: string, b: string)
    ensures SplitWs(a + " " + b) == SplitWs(a) + SplitWs(b)
    decreases |a|, 1
  {
    if LeadingSpace(a) == |a| {
      SplitWsBlankFirst(a, b);
    } else {
      SplitWsWordFirst(a, b);
    }
  }

  lemma SplitWsBlankFirst(a: string, b: string)
    requires LeadingSpace(a) == |a|
    ensures SplitWs(a + " " + b) == SplitWs(a) + SplitWs(b)
  {
    var s := a + " " + b;
    forall i | 0 <= i < |a| + 1
      ensures IsSpace(s[i])
    {
      if i < |a| { assert s[i] == a[i]; }
    }
    SplitWsSkip(s, |a| + 1);
    assert s[|a| + 1..] == b;
    assert SplitWs(a) == [];
  }

  lemma {:induction false} SplitWsWordFirst(a: string, b: string)
    requires LeadingSpace(a) < |a|
    ensures SplitWs(a + " " + b) == SplitWs(a) + SplitWs(b)
    decreases |a|, 0
  {
    var s := a + " " + b;
    var n := LeadingSpace(a);
    var t := a[n..];
    var w := WordLen(t);
    var word, tail := t[..w], t[w..];
    var rest := tail + " " + b;
    assert t == word + tail;
    assert !IsSpace(t[0]);
    assert forall i :: 0 <= i < n ==> s[i] == a[i];
    SpaceJoinDrop(a, b, n, w);
    SplitWsAt(s, n, word, rest);
    SplitWsAt(a, n, word, tail);
    SplitWsSpace(tail, b);
    calc {
      SplitWs(s);
      [word] + SplitWs(rest);
      [word] + (SplitWs(tail) + SplitWs(b));
      { ConcatAssoc([word], SplitWs(tail), SplitWs(b)); }
      ([word] + SplitWs(tail)) + SplitWs(b);
      SplitWs(a) + SplitWs(b);
    }
  }

  /** Dropping n leading chars of `a + " " + b`, then splitting what is left at w. */
  lemma SpaceJoinDrop(a: string, b: string, n: nat, w: nat)
    requires n + w <= |a|
    ensures (a + " " + b)[n..] == a[n..][..w] + (a[n..][w..] + " " + b)
  {
  }

  /** A string that is blanks, then `word`, then `rest` splits into `word` and rest's words. */
  lemma SplitWsAt(s: string, n: nat, word: string, rest: string)
    requires n <= |s| && (forall i :: 0 <= i < n ==> IsSpace(s[i])) && s[n..] == word + rest
    requires |word| > 0 && (forall k :: 0 <= k < |word| ==> !IsSpace(word[k]))
    requires rest == [] || IsSpace(rest[0])
    ensures SplitWs(s) == [word] + SplitWs(rest)
  {
    SplitWsSkip(s, n);
    SplitWsWord(word, rest);
  }

  lemma ConcatAssoc<T>(h: seq<T>, p: seq<T>, q: seq<T>)
    ensures h + (p + q) == (h + p) + q
  {
  }

  /** Leading whitespace does not change `s.split()`. */
  lemma {:induction false} SplitWsSkip(s: string, n: nat)
    requires n <= |s|
    requires forall i :: 0 <= i < n ==> IsSpace(s[i])
    ensures SplitWs(s) == SplitWs(s[n..])
    decreases n
  {
    if n > 0 {
      assert s[n..] == s[1..][n - 1..];
      SplitWsSkip(s[1..], n - 1);
      assert s == " " + s[1..] || IsSpace(s[0]);
      assert LeadingSpace(s) == 1 + LeadingSpace(s[1..]);
      assert s[LeadingSpace(s)..] == s[1..][LeadingSpace(s[1..])..];
    }
  }

  // ---------------------------------------------------------------------
  // Decimal numbers

  function DigitValue(c: char): (d: nat)
    requires IsDigit(c)
    ensures d < 10
  {
    c as int - '0' as int
  }

  function DigitChar(d: nat): (c: char)
    requires d < 10
    ensures IsDigit(c) && DigitValue(c) == d
  {
    ('0' as int + d) as char
  }

  /** `int(s)` for a string of decimal digits. */
  function DecimalValue(s: string): (n: nat)
    requires forall i :: 0 <= i < |s| ==> IsDigit(s[i])
    decreases |s|
  {
    if |s| == 0 then 0 else DecimalValue(s[..|s| - 1]) * 10 + DigitValue(s[|s| - 1])
  }

  /** `str(n)` for n >= 0: no leading zeros (except "0" itself). */
  function Decimal(n: nat): (s: string)
    ensures IsDigits(s)
    decreases n
  {
    if n < 10 then [DigitChar(n)] else Decimal(n / 10) + [DigitChar(n % 10)]
  }

  lemma {:induction false} DecimalRoundTrip(n: nat)
    ensures DecimalValue(Decimal(n)) == n
    decreases n
  {
    var s := Decimal(n);
    if n >= 10 {
      DecimalRoundTrip(n / 10);
      assert s[..|s| - 1] == Decimal(n / 10);
    }
  }

  /** `'%0w.wd' % n`: at least `width` digits, padded on the left with '0'. */
  function ZeroPad(n: nat, width: nat): (s: string)
    ensures IsDigits(s)
    ensures |s| >= width
  {
    var d := Decimal(n);
    if |d| >= width then d else Zeros(width - |d|) + d
  }

  function Zeros(z: nat): (s: string)
    ensures |s| == z && forall i :: 0 <= i < z ==> s[i] == '0'
  {
    seq(z, _ => '0')
  }

  lemma {:induction false} LeadingZerosValue(z: nat, d: string)
    requires forall i :: 0 <= i < |d| ==> IsDigit(d[i])
    ensures DecimalValue(Zeros(z) + d) == DecimalValue(d)
    decreases |d|
  {
    var s := Zeros(z) + d;
    if |d| == 0 {
      assert s == Zeros(z);
      ZerosValue(z);
    } else {
      LeadingZerosValue(z, d[..|d| - 1]);
      assert s[..|s| - 1] == Zeros(z) + d[..|d| - 1];
    }
  }

  lemma {:induction false} ZerosValue(z: nat)
    ensures DecimalValue(Zeros(z)) == 0
    decreases z
  {
    if z > 0 {
      assert Zeros(z)[..z - 1] == Zeros(z - 1);
      ZerosValue(z - 1);
    }
  }

  /** Zero padding keeps the number: `int('%4.4d' % n) == n`. */
  lemma ZeroPadValue(n: nat, width: nat)
    ensures DecimalValue(ZeroPad(n, width)) == n
  {
    DecimalRoundTrip(n);
    var d := Decimal(n);
    if |d| < width {
      LeadingZerosValue(width - |d|, d);
    }
  }

  // ---------------------------------------------------------------------
  // Ordering and sorting

  /** Python 2 byte-string `<`: by character code, a proper prefix first. */
  predicate StrLess(a: string, b: string)
    decreases |a|
  {
    if |a| == 0 then |b| > 0
    else if |b| == 0 then false
    else if a[0] != b[0] then a[0] < b[0]
    else StrLess(a[1..], b[1..])
  }

  lemma {:induction false} StrLessIrreflexive(a: string)
    ensures !StrLess(a, a)
    decreases |a|
  {
    if |a| > 0 { StrLessIrreflexive(a[1..]); }
  }

  lemma {:induction false} StrLessTransitive(a: string, b: string, c: string)
    requires StrLess(a, b) && StrLess(b, c)
    ensures StrLess(a, c)
    decreases |a|
  {
    if |a| > 0 && a[0] == b[0] && b[0] == c[0] {
      StrLessTransitive(a[1..], b[1..], c[1..]);
    }
  }

  /** `<` on strings is a strict total order. */
  lemma {:induction false} StrLessTotal(a: string, b: string)
    ensures a == b || StrLess(a, b) || StrLess(b, a)
    ensures !(StrLess(a, b) && StrLess(b, a))
    decreases |a|
  {
    if |a| > 0 && |b| > 0 && a[0] == b[0] {
      StrLessTotal(a[1..], b[1..]);
      if a[1..] == b[1..] {
        assert a == [a[0]] + a[1..] && b == [b[0]] + b[1..];
      }
    }
  }

  /** Two strings that agree before index k and differ there are ordered by that char. */
  lemma {:induction false} StrLessAt(a: string, b: string, k: nat)
    requires k < |a| && k < |b| && a[..k] == b[..k] && a[k] < b[k]
    ensures StrLess(a, b)
    decreases k
  {
    if k > 0 {
      assert a[0] == a[..k][0] == b[..k][0] == b[0];
      assert a[1..][..k - 1] == a[1..k] == a[..k][1..];
      assert b[1..][..k - 1] == b[1..k] == b[..k][1..];
      StrLessAt(a[1..], b[1..], k - 1);
    }
  }

  predicate SortedStrs(s: seq<string>)
  {
    forall i, j :: 0 <= i < j < |s| ==> !StrLess(s[j], s[i])
  }

  /** Insert x before the first element it is less than (after any equal ones). */
  function Insert(x: string, s: seq<string>): (r: seq<string>)
    ensures multiset(r) == multiset(s) + multiset{x}
    decreases |s|
  {
    if |s| == 0 then [x]
    else if StrLess(x, s[0]) then [x] + s
    else
      assert s == [s[0]] + s[1..];
      [s[0]] + Insert(x, s[1..])
  }

  lemma {:induction false} InsertSorted(x: string, s: seq<string>)
    requires SortedStrs(s)
    ensures SortedStrs(Insert(x, s))
    decreases |s|
  {
    if |s| == 0 {
    } else if StrLess(x, s[0]) {
      forall j | 0 <= j < |s| ensures !StrLess(s[j], x) {
        StrLessTotal(x, s[0]);
        if j > 0 {
          StrLessTotal(s[0], s[j]);
          if StrLess(s[j], x) { StrLessTransitive(s[j], x, s[0]); }
        }
      }
      ConsSorted(x, s);
    } else {
      var rest := Insert(x, s[1..]);
      InsertSorted(x, s[1..]);
      assert s == [s[0]] + s[1..];
      forall k | 0 <= k < |rest| ensures !StrLess(rest[k], s[0]) {
        assert rest[k] in multiset(rest);
        if rest[k] != x {
          assert rest[k] in multiset(s[1..]);
          var m :| 0 <= m < |s[1..]| && s[1..][m] == rest[k];
          assert s[m + 1] == rest[k];
        }
      }
      ConsSorted(s[0], rest);
    }
  }

  /** A sorted list stays sorted with a new head no later element is less than. */
  lemma ConsSorted(y: string, s: seq<string>)
    requires SortedStrs(s) && forall k :: 0 <= k < |s| ==> !StrLess(s[k], y)
    ensures SortedStrs([y] + s)
  {
    var r := [y] + s;
    forall i, j | 0 <= i < j < |r| ensures !StrLess(r[j], r[i]) {
      if i > 0 { assert r[i] == s[i - 1] && r[j] == s[j - 1]; }
      else { assert r[j] == s[j - 1]; }
    }
  }

  /** `list.sort()` on strings: a sorted permutation. */
  function SortStrs(s: seq<string>): (r: seq<string>)
    ensures SortedStrs(r)
    ensures multiset(r) == multiset(s)
    decreases |s|
  {
    if |s| == 0 then []
    else
      assert s == [s[0]] + s[1..];
      InsertSorted(s[0], SortStrs(s[1..]));
      Insert(s[0], SortStrs(s[1..]))
  }

  // ---------------------------------------------------------------------
  // First-seen order

  /** `for x in xs: if x not in out: out.append(x)`: each element once, where it first appears. */
  function Dedup<T(==,!new)>(xs: seq<T>): (r: seq<T>)
    ensures forall i, j :: 0 <= i < j < |r| ==> r[i] != r[j]
    ensures forall x :: x in r <==> x in xs
    decreases |xs|
  {
    if |xs| == 0 then []
    else
      var d := Dedup(xs[..|xs| - 1]);
      var x := xs[|xs| - 1];
      assert xs == xs[..|xs| - 1] + [x];
      if x in d then d else d + [x]
  }
}
