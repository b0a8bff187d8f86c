/**
 * The parts of java.lang.String, Apache Commons Lang StringUtils and Spring StringUtils
 * that the modelled code relies on, with the JDK's own edge cases.
 * A Dafny `char` stands for one UTF-16 code unit.
 */
module JavaText {
  import opened Wrappers

  // ---------------------------------------------------------------- whitespace

  /** Character.isWhitespace for a code unit in the Basic Multilingual Plane. */
  predicate IsWhitespace(c: char)
  {
    c == ' ' || c == '\t' || c == '\n' || c == '\U{000B}' || c == '\U{000C}' || c == '\r'
    || ('\U{001C}' <= c <= '\U{001F}')
    || c == '\U{1680}' || ('\U{2000}' <= c <= '\U{2006}') || ('\U{2008}' <= c <= '\U{200A}')
    || c == '\U{2028}' || c == '\U{2029}' || c == '\U{205F}' || c == '\U{3000}'
  }

  /** StringUtils.isBlank (Commons Lang) and !StringUtils.hasText (Spring) on a non-null string. */
  predicate IsBlank(s: string)
  {
    forall i :: 0 <= i < |s| ==> IsWhitespace(s[i])
  }

  predicate HasText(s: string)
  {
    !IsBlank(s)
  }

  /** A null-able string: Commons Lang isBlank(null) is true. */
  predicate IsBlankOpt(s: Option<string>)
  {
    s.None? || IsBlank(s.value)
  }

  /** String concatenation of a possibly null string: "null" stands for null. */
  function NullText(s: Option<string>): (r: string)
    ensures s.Some? ==> r == s.value
    ensures s.None? ==> r == "null"
  {
    if s.Some? then s.value else "null"
  }

  // ---------------------------------------------------------------- String.trim

  /** Start and end of the text String.trim keeps: every code unit <= ' ' is cut from both ends. */
  function TrimBounds(s: string): (b: (nat, nat))
    ensures b.0 <= b.1 <= |s|
    ensures forall i :: 0 <= i < b.0 ==> s[i] <= ' '
    ensures forall i :: b.1 <= i < |s| ==> s[i] <= ' '
    ensures b.0 < b.1 ==> s[b.0] > ' ' && s[b.1 - 1] > ' '
    ensures b.0 == b.1 ==> forall i :: 0 <= i < |s| ==> s[i] <= ' '
  {
    var lo := TrimStart(s, 0);
    if lo == |s| then (|s|, |s|) else (lo, TrimEnd(s, lo, |s|))
  }

  function TrimStart(s: string, i: nat): (lo: nat)
    requires i <= |s|
    requires forall k :: 0 <= k < i ==> s[k] <= ' '
    ensures i <= lo <= |s|
    ensures forall k :: 0 <= k < lo ==> s[k] <= ' '
    ensures lo < |s| ==> s[lo] > ' '
    decreases |s| - i
  {
    if i == |s| || s[i] > ' ' then i else TrimStart(s, i + 1)
  }

  function TrimEnd(s: string, lo: nat, j: nat): (hi: nat)
    requires lo < j <= |s| && s[lo] > ' '
    requires forall k :: j <= k < |s| ==> s[k] <= ' '
    ensures lo < hi <= j
    ensures s[hi - 1] > ' '
    ensures forall k :: hi <= k < |s| ==> s[k] <= ' '
    decreases j
  {
    if s[j - 1] > ' ' then j else TrimEnd(s, lo, j - 1)
  }

  /** String.trim */
  function Trim(s: string): (r: string)
    ensures |r| <= |s|
    ensures r == s[TrimBounds(s).0..TrimBounds(s).1]
    ensures r == [] || (r[0] > ' ' && r[|r| - 1] > ' ')
  {
    var b := TrimBounds(s);
    s[b.0..b.1]
  }

  /** A text that neither starts nor ends with a code unit <= ' ' is left as it is. */
  lemma TrimUntouched(s: string)
    requires s == [] || (s[0] > ' ' && s[|s| - 1] > ' ')
    ensures Trim(s) == s
  {
    if s != [] {
      assert TrimStart(s, 0) == 0;
      assert TrimEnd(s, 0, |s|) == |s|;
    }
  }

  /** Trimming twice is trimming once. */
  lemma TrimIdempotent(s: string)
    ensures Trim(Trim(s)) == Trim(s)
  {
    TrimUntouched(Trim(s));
  }

  /** Two texts with their code units <= ' ' at the same places trim at the same places. */
  lemma TrimBoundsSamePattern(s: string, t: string)
    requires |s| == |t|
    requires forall i :: 0 <= i < |s| ==> (s[i] <= ' ' <==> t[i] <= ' ')
    ensures TrimBounds(s) == TrimBounds(t)
  {
    var b, c := TrimBounds(s), TrimBounds(t);
    if b.0 == b.1 {
      assert forall i :: 0 <= i < |t| ==> t[i] <= ' ';
      assert TrimStart(s, 0) == |s|;
      assert TrimStart(t, 0) == |t|;
    } else {
      assert t[b.0] > ' ' && t[b.1 - 1] > ' ';
    }
  }

  /** Any cut that keeps a text with no code unit <= ' ' at either end is the cut String.trim makes. */
  lemma TrimCharacterized(s: string, lo: nat, hi: nat)
    requires lo < hi <= |s| && s[lo] > ' ' && s[hi - 1] > ' '
    requires forall i :: 0 <= i < lo ==> s[i] <= ' '
    requires forall i :: hi <= i < |s| ==> s[i] <= ' '
    ensures Trim(s) == s[lo..hi]
  {
    var b := TrimBounds(s);
    assert b.0 < b.1 by {
      assert s[lo] > ' ';
    }
  }

  /** A slice of the middle part, read in the whole. */
  lemma InnerSlice(pre: string, t: string, post: string, i: nat, j: nat)
    requires i <= j <= |t|
    ensures (pre + t + post)[|pre| + i..|pre| + j] == t[i..j]
  {
    var s := pre + t + post;
    assert s[|pre|..|pre| + |t|] == t;
    assert s[|pre| + i..|pre| + j] == s[|pre|..|pre| + |t|][i..j];
  }

  /** A text of code units <= ' ' only trims to nothing. */
  lemma TrimAllLow(s: string)
    requires forall i :: 0 <= i < |s| ==> s[i] <= ' '
    ensures Trim(s) == ""
  {
  }

  /** Code units <= ' ' around a text do not change what String.trim keeps. */
  lemma TrimPadded(pre: string, t: string, post: string)
    requires forall i :: 0 <= i < |pre| ==> pre[i] <= ' '
    requires forall i :: 0 <= i < |post| ==> post[i] <= ' '
    ensures Trim(pre + t + post) == Trim(t)
  {
    var b := TrimBounds(t);
    if b.0 < b.1 {
      TrimPaddedText(pre, t, post, b.0, b.1);
    } else {
      LowConcat(pre, t, post);
      TrimAllLow(pre + t + post);
    }
  }

  lemma LowConcat(pre: string, t: string, post: string)
    requires forall i :: 0 <= i < |pre| ==> pre[i] <= ' '
    requires forall i :: 0 <= i < |t| ==> t[i] <= ' '
    requires forall i :: 0 <= i < |post| ==> post[i] <= ' '
    ensures forall i :: 0 <= i < |pre + t + post| ==> (pre + t + post)[i] <= ' '
  {
  }

  lemma LowBefore(pre: string, t: string, post: string, lo: nat)
    requires lo <= |t|
    requires forall i :: 0 <= i < |pre| ==> pre[i] <= ' '
    requires forall i :: 0 <= i < lo ==> t[i] <= ' '
    ensures forall i :: 0 <= i < |pre| + lo ==> (pre + t + post)[i] <= ' '
  {
    var s := pre + t + post;
    forall i | 0 <= i < |pre| + lo
      ensures s[i] <= ' '
    {
      if i >= |pre| {
        assert s[i] == t[i - |pre|];
      }
    }
  }

  lemma LowAfter(pre: string, t: string, post: string, hi: nat)
    requires hi <= |t|
    requires forall i :: hi <= i < |t| ==> t[i] <= ' '
    requires forall i :: 0 <= i < |post| ==> post[i] <= ' '
    ensures forall i :: |pre| + hi <= i < |pre + t + post| ==> (pre + t + post)[i] <= ' '
  {
    var s := pre + t + post;
    forall i | |pre| + hi <= i < |s|
      ensures s[i] <= ' '
    {
      if i < |pre| + |t| {
        assert s[i] == t[i - |pre|];
      } else {
        assert s[i] == post[i - |pre| - |t|];
      }
    }
  }

  lemma TrimPaddedText(pre: string, t: string, post: string, lo: nat, hi: nat)
    requires forall i :: 0 <= i < |pre| ==> pre[i] <= ' '
    requires forall i :: 0 <= i < |post| ==> post[i] <= ' '
    requires lo < hi <= |t| && t[lo] > ' ' && t[hi - 1] > ' '
    requires forall i :: 0 <= i < lo ==> t[i] <= ' '
    requires forall i :: hi <= i < |t| ==> t[i] <= ' '
    ensures Trim(pre + t + post) == t[lo..hi]
  {
    var s := pre + t + post;
    var n := |pre|;
    assert s[n + lo] == t[lo] && s[n + hi - 1] == t[hi - 1];
    LowBefore(pre, t, post, lo);
    LowAfter(pre, t, post, hi);
    TrimCharacterized(s, n + lo, n + hi);
    InnerSlice(pre, t, post, lo, hi);
  }

  // ---------------------------------------------------------------- ASCII case

  function LowerChar(c: char): char
  {
    if 'A' <= c <= 'Z' then (c as int + 32) as char else c
  }

  function UpperChar(c: char): char
  {
    if 'a' <= c <= 'z' then (c as int - 32) as char else c
  }

  /** toLowerCase on the ASCII letters. */
  function ToLower(s: string): (r: string)
    ensures |r| == |s|
    ensures forall i :: 0 <= i < |s| ==> r[i] == LowerChar(s[i])
  {
    seq(|s|, i requires 0 <= i < |s| => LowerChar(s[i]))
  }

  /** toUpperCase on the ASCII letters. */
  function ToUpper(s: string): (r: string)
    ensures |r| == |s|
    ensures forall i :: 0 <= i < |s| ==> r[i] == UpperChar(s[i])
  {
    seq(|s|, i requires 0 <= i < |s| => UpperChar(s[i]))
  }

  lemma ToLowerAppend(a: string, b: string)
    ensures ToLower(a + b) == ToLower(a) + ToLower(b)
  {
  }

  /** String.equalsIgnoreCase on ASCII text. */
  predicate EqualsIgnoreCase(a: string, b: string)
  {
    ToLower(a) == ToLower(b)
  }

  // ---------------------------------------------------------------- searching

  predicate OccursAt(s: string, t: string, i: int)
  {
    0 <= i && i + |t| <= |s| && s[i..i + |t|] == t
  }

  /** String.contains */
  predicate Contains(s: string, t: string)
  {
    exists i :: 0 <= i <= |s| && OccursAt(s, t, i)
  }

  predicate StartsWith(s: string, p: string)
  {
    |p| <= |s| && s[..|p|] == p
  }

  lemma StartsWithSelf(s: string)
    ensures StartsWith(s, s)
  {
  }

  /** Appending keeps a prefix. */
  lemma StartsWithExtend(s: string, p: string, b: string)
    requires StartsWith(s, p)
    ensures StartsWith(s + b, p)
  {
    assert (s + b)[..|p|] == s[..|p|];
  }

  /** A concatenation ends with its last part. */
  lemma EndsWithLast(a: string, b: string)
    ensures (a + b)[|a + b| - |b|..] == b
  {
  }

  /** Text found in the middle part is found in the whole. */
  lemma ContainsInfix(a: string, m: string, b: string, x: string)
    requires Contains(m, x)
    ensures Contains(a + m + b, x)
  {
    var i :| 0 <= i <= |m| && OccursAt(m, x, i);
    var s := a + m + b;
    assert s[|a| + i..|a| + i + |x|] == m[i..i + |x|];
    assert OccursAt(s, x, |a| + i);
  }

  /** Containment is transitive. */
  lemma ContainsTransitive(s: string, m: string, x: string)
    requires Contains(s, m) && Contains(m, x)
    ensures Contains(s, x)
  {
    var i :| 0 <= i <= |s| && OccursAt(s, m, i);
    var j :| 0 <= j <= |m| && OccursAt(m, x, j);
    assert forall t :: 0 <= t < |m| ==> s[i + t] == m[t] by {
      forall t | 0 <= t < |m| ensures s[i + t] == m[t] {
        assert s[i..i + |m|][t] == m[t];
      }
    }
    assert forall t :: 0 <= t < |x| ==> x[t] == m[j + t] by {
      forall t | 0 <= t < |x| ensures x[t] == m[j + t] {
        assert m[j..j + |x|][t] == x[t];
      }
    }
    assert s[i + j..i + j + |x|] == x;
    assert OccursAt(s, x, i + j);
  }

  /** Every text contains itself. */
  lemma ContainsSelf(s: string)
    ensures Contains(s, s)
  {
    assert OccursAt(s, s, 0);
  }

  function IndexOfFrom(s: string, t: string, from: nat): (r: int)
    ensures r == -1 || (from <= r && OccursAt(s, t, r))
    ensures forall i :: from <= i && (r == -1 || i < r) ==> !OccursAt(s, t, i)
    decreases |s| - from
  {
    if from + |t| > |s| then -1
    else if s[from..from + |t|] == t then from
    else IndexOfFrom(s, t, from + 1)
  }

  /** String.indexOf: the first occurrence, or -1. */
  function IndexOf(s: string, t: string): (r: int)
    ensures r == -1 <==> !Contains(s, t)
    ensures r != -1 ==> OccursAt(s, t, r) && forall i :: 0 <= i < r ==> !OccursAt(s, t, i)
  {
    IndexOfFrom(s, t, 0)
  }

  function LastIndexBefore(s: string, t: string, k: nat): (r: int)
    ensures r == -1 || (r < k && OccursAt(s, t, r))
    ensures forall i :: r < i < k ==> !OccursAt(s, t, i)
    decreases k
  {
    if k == 0 then -1
    else if OccursAt(s, t, k - 1) then k - 1
    else LastIndexBefore(s, t, k - 1)
  }

  /** String.lastIndexOf: the last occurrence, or -1. */
  function LastIndexOf(s: string, t: string): (r: int)
    ensures r == -1 <==> !Contains(s, t)
    ensures r != -1 ==> OccursAt(s, t, r) && forall i :: r < i ==> !OccursAt(s, t, i)
  {
    LastIndexBefore(s, t, |s| + 1)
  }

  // ---------------------------------------------------------------- join and split

  /** String.join / Collectors.joining(sep) */
  function Join(parts: seq<string>, sep: string): string
  {
    if |parts| == 0 then ""
    else if |parts| == 1 then parts[0]
    else parts[0] + sep + Join(parts[1..], sep)
  }

  /** The pieces of `s` between occurrences of `sep`, empty pieces included. */
  function Pieces(s: string, sep: char): (r: seq<string>)
    ensures |r| >= 1
    ensures forall k :: 0 <= k < |r| ==> sep !in r[k]
    decreases |s|
  {
    if |s| == 0 then [""]
    else
      var rest := Pieces(s[1..], sep);
      if s[0] == sep then [""] + rest
      else [[s[0]] + rest[0]] + rest[1..]
  }

  /** Joining the pieces with the separator gives the text back. */
  lemma {:induction false} PiecesJoin(s: string, sep: char)
    ensures Join(Pieces(s, sep), [sep]) == s
    decreases |s|
  {
    if |s| > 0 {
      var rest := Pieces(s[1..], sep);
      PiecesJoin(s[1..], sep);
      if s[0] == sep {
        assert Pieces(s, sep) == [""] + rest;
        assert ([""] + rest)[1..] == rest;
      } else {
        var r := [[s[0]] + rest[0]] + rest[1..];
        if |rest| == 1 {
          assert r == [[s[0]] + rest[0]];
        } else {
          assert r[1..] == rest[1..];
          assert Join(rest, [sep]) == rest[0] + [sep] + Join(rest[1..], [sep]);
        }
      }
    }
  }

  /** A text without the separator is one piece. */
  lemma {:induction false} PiecesNoSep(s: string, sep: char)
    requires sep !in s
    ensures Pieces(s, sep) == [s]
    decreases |s|
  {
    if |s| > 0 {
      assert sep !in s[1..];
      PiecesNoSep(s[1..], sep);
      assert [s[0]] + s[1..] == s;
    }
  }

  /** A separator after a separator-free prefix ends the first piece. */
  lemma {:induction false} PiecesAppend(a: string, b: string, sep: char)
    requires sep !in a
    ensures Pieces(a + [sep] + b, sep) == [a] + Pieces(b, sep)
    decreases |a|
  {
    var s := a + [sep] + b;
    if |a| == 0 {
      assert s[0] == sep && s[1..] == b;
    } else {
      assert s[0] == a[0] && s[1..] == a[1..] + [sep] + b;
      assert sep !in a[1..];
      PiecesAppend(a[1..], b, sep);
      assert [a[0]] + a[1..] == a;
    }
  }

  /** Splitting a join of separator-free parts gives the parts back. */
  lemma {:induction false} PiecesOfJoin(parts: seq<string>, sep: char)
    requires |parts| >= 1
    requires forall k :: 0 <= k < |parts| ==> sep !in parts[k]
    ensures Pieces(Join(parts, [sep]), sep) == parts
    decreases |parts|
  {
    if |parts| == 1 {
      PiecesNoSep(parts[0], sep);
    } else {
      PiecesAppend(parts[0], Join(parts[1..], [sep]), sep);
      PiecesOfJoin(parts[1..], sep);
      assert [parts[0]] + parts[1..] == parts;
    }
  }

  function DropTrailingEmpty(ps: seq<string>): (r: seq<string>)
    ensures |r| <= |ps| && r == ps[..|r|]
    ensures forall k :: |r| <= k < |ps| ==> ps[k] == ""
    ensures r == [] || r[|r| - 1] != ""
  {
    if |ps| > 0 && ps[|ps| - 1] == "" then DropTrailingEmpty(ps[..|ps| - 1]) else ps
  }

  /**
   * String.split with a one-character literal pattern: no occurrence gives [s];
   * otherwise the pieces with the trailing empty ones removed.
   */
  function Split(s: string, sep: char): (r: seq<string>)
    ensures |r| <= |Pieces(s, sep)| && r == Pieces(s, sep)[..|r|]
    ensures forall k :: |r| <= k < |Pieces(s, sep)| ==> Pieces(s, sep)[k] == ""
    ensures sep in s ==> r == [] || r[|r| - 1] != ""
    ensures sep !in s ==> r == [s]
    ensures forall k :: 0 <= k < |r| ==> sep !in r[k]
  {
    if sep !in s then PiecesNoSep(s, sep); [s] else DropTrailingEmpty(Pieces(s, sep))
  }

  /** String.split inverts String.join when no part holds the separator and the last part is not empty. */
  lemma SplitOfJoin(parts: seq<string>, sep: char)
    requires |parts| >= 1 && parts[|parts| - 1] != ""
    requires forall k :: 0 <= k < |parts| ==> sep !in parts[k]
    ensures Split(Join(parts, [sep]), sep) == parts
  {
    PiecesOfJoin(parts, sep);
    var s := Join(parts, [sep]);
    if sep !in s {
      PiecesNoSep(s, sep);
    }
  }

  // ---------------------------------------------------------------- numbers

  predicate IsDigit(c: char)
  {
    '0' <= c <= '9'
  }

  function DigitChar(d: nat): (c: char)
    requires d < 10
    ensures IsDigit(c) && c as int - '0' as int == d
  {
    ('0' as int + d) as char
  }

  /** Decimal digits of a natural number, most significant first. */
  function NatToString(n: nat): (r: string)
    ensures |r| >= 1
    ensures forall i :: 0 <= i < |r| ==> IsDigit(r[i])
    decreases n
  {
    if n < 10 then [DigitChar(n)] else NatToString(n / 10) + [DigitChar(n % 10)]
  }

  /** String.valueOf(int) */
  function IntToString(i: int): string
  {
    if i < 0 then "-" + NatToString(-i) else NatToString(i)
  }

  function DigitsValue(s: string): nat
    requires forall i :: 0 <= i < |s| ==> IsDigit(s[i])
  {
    if |s| == 0 then 0
    else
      assert IsDigit(s[|s| - 1]);
      10 * DigitsValue(s[..|s| - 1]) + (s[|s| - 1] as int - '0' as int)
  }

  const INT_MIN: int := -0x8000_0000
  const INT_MAX: int := 0x7FFF_FFFF

  /**
   * Integer.parseInt on ASCII digits: an optional sign, at least one digit, and a value
   * within 32 bits; anything else is a NumberFormatException.
   */
  function ParseInt(s: string): (r: Result<int>)
    ensures r.Ok? ==> INT_MIN <= r.value <= INT_MAX
    ensures |s| == 0 ==> r.Err?
  {
    if |s| == 0 then Err(NumberFormat(s))
    else
      var neg := s[0] == '-';
      var digits := if s[0] == '-' || s[0] == '+' then s[1..] else s;
      if |digits| == 0 || exists i :: 0 <= i < |digits| && !IsDigit(digits[i]) then Err(NumberFormat(s))
      else
        var m: int := DigitsValue(digits);
        var v: int := if neg then -m else m;
        if INT_MIN <= v <= INT_MAX then Ok(v) else Err(NumberFormat(s))
  }

  lemma {:induction false} DigitsRoundTrip(n: nat)
    ensures DigitsValue(NatToString(n)) == n
    decreases n
  {
    if n >= 10 {
      var s := NatToString(n);
      DigitsRoundTrip(n / 10);
      assert s[..|s| - 1] == NatToString(n / 10);
    }
  }

  /** Parsing the decimal text of a 32-bit int gives the int back. */
  lemma ParseIntRoundTrip(i: int)
    requires INT_MIN <= i <= INT_MAX
    ensures ParseInt(IntToString(i)) == Ok(i)
  {
    var t := NatToString(if i < 0 then -i else i);
    DigitsRoundTrip(if i < 0 then -i else i);
    assert IsDigit(t[0]) && t[0] != '-' && t[0] != '+';
    assert forall k :: 0 <= k < |t| ==> IsDigit(t[k]);
    if i < 0 {
      var s := "-" + t;
      assert s[0] == '-' && s[1..] == t;
    }
  }

  // ---------------------------------------------------------------- hashing

  const TWO_32: int := 0x1_0000_0000

  /** String.hashCode as an unsigned 32-bit value: h = 31 * h + c, wrapping. */
  function HashBits(s: string): (h: nat)
    ensures h < TWO_32
  {
    if |s| == 0 then 0 else (31 * HashBits(s[..|s| - 1]) + s[|s| - 1] as int) % TWO_32
  }

  /** String.hashCode, read back as a signed 32-bit int. */
  function HashCode(s: string): (h: int)
    ensures INT_MIN <= h <= INT_MAX
  {
    var u := HashBits(s);
    if u < 0x8000_0000 then u else u - TWO_32
  }

  // ---------------------------------------------------------------- abbreviate

  /**
   * StringUtils.abbreviate(str, maxWidth) with the "..." marker: an empty text is kept,
   * a width below 4 is rejected, a short text is kept, a long one is cut to maxWidth.
   */
  function Abbreviate(s: string, maxWidth: int): (r: Result<string>)
    ensures s == "" ==> r == Ok(s)
    ensures s != "" && maxWidth < 4 ==> r.Err? && r.error.IllegalArgument?
    ensures r.Ok? ==> |r.value| <= |s| && (s != "" ==> |r.value| <= maxWidth)
    ensures r.Ok? && |s| <= maxWidth ==> r.value == s
    ensures r.Ok? && s != "" && |s| > maxWidth ==> r.value == s[..maxWidth - 3] + "..."
  {
    if s == "" then Ok(s)
    else if maxWidth < 4 then Err(IllegalArgument("Minimum abbreviation width is 4"))
    else if |s| <= maxWidth then Ok(s)
    else Ok(s[..maxWidth - 3] + "...")
  }
}
