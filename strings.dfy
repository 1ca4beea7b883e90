/**
 * Text primitives the scrapers rely on, with Python's semantics for the
 * operations the source calls: `str.strip`, `str.split(sep)`, `str.split()`,
 * `str.replace`, `str.lower`, `str.title`, `str.isdigit`, `int(str)`,
 * `str(int)` and the lexicographic `<` on strings.  Characters are treated
 * as ASCII where Python consults the Unicode database.
 */
module Strings {
  import opened Wrappers

  predicate IsDigit(c: char) { '0' <= c <= '9' }

  /** The ASCII characters Python's `str.isspace` accepts. */
  predicate IsSpace(c: char) { c == ' ' || ('\t' <= c <= '\r') || (28 <= c as int <= 31) }

  predicate IsLetter(c: char) { ('a' <= c <= 'z') || ('A' <= c <= 'Z') }

  predicate AllDigits(s: string) { forall i :: 0 <= i < |s| ==> IsDigit(s[i]) }

  predicate NoSpace(s: string) { forall i :: 0 <= i < |s| ==> !IsSpace(s[i]) }

  /** Python's truth value of an optional string: present and non-empty. */
  predicate Truthy(o: Option<string>) { o.Some? && o.value != "" }

  // ---------------------------------------------------------------- strip

  function TrimLeft(s: string): (r: string)
    ensures |r| <= |s|
    ensures r != "" ==> !IsSpace(r[0])
  {
    if |s| > 0 && IsSpace(s[0]) then TrimLeft(s[1..]) else s
  }

  /** `TrimLeft` drops a run of leading whitespace and keeps the rest. */
  lemma {:induction false} TrimLeftShape(s: string)
    ensures TrimLeft(s) == s[|s| - |TrimLeft(s)|..]
    ensures forall i :: 0 <= i < |s| - |TrimLeft(s)| ==> IsSpace(s[i])
  {
    if |s| > 0 && IsSpace(s[0]) {
      TrimLeftShape(s[1..]);
    }
  }

  function TrimRight(s: string): (r: string)
    ensures |r| <= |s|
    ensures r != "" ==> !IsSpace(r[|r| - 1])
  {
    if |s| > 0 && IsSpace(s[|s| - 1]) then TrimRight(s[..|s| - 1]) else s
  }

  /** `TrimRight` drops a run of trailing whitespace and keeps the rest. */
  lemma {:induction false} TrimRightShape(s: string)
    ensures TrimRight(s) == s[..|TrimRight(s)|]
    ensures forall i :: |TrimRight(s)| <= i < |s| ==> IsSpace(s[i])
  {
    if |s| > 0 && IsSpace(s[|s| - 1]) {
      TrimRightShape(s[..|s| - 1]);
    }
  }

  /** `str.strip()`: the text without surrounding whitespace. */
  function Trim(s: string): (r: string)
    ensures |r| <= |s|
    ensures r != "" ==> !IsSpace(r[0]) && !IsSpace(r[|r| - 1])
  {
    TrimLeftShape(TrimRight(s));
    TrimLeft(TrimRight(s))
  }

  lemma TrimLeftOfUnpadded(s: string)
    requires s == "" || !IsSpace(s[0])
    ensures TrimLeft(s) == s
  {
  }

  lemma TrimRightOfUnpadded(s: string)
    requires s == "" || !IsSpace(s[|s| - 1])
    ensures TrimRight(s) == s
  {
  }

  /** Stripping twice is stripping once. */
  lemma TrimIdempotent(s: string)
    ensures Trim(Trim(s)) == Trim(s)
  {
    var t := Trim(s);
    TrimRightOfUnpadded(t);
    TrimLeftOfUnpadded(t);
  }

  lemma TrimOfNoSpace(s: string)
    requires NoSpace(s)
    ensures Trim(s) == s
  {
    TrimRightOfUnpadded(s);
    TrimLeftOfUnpadded(s);
  }

  // ---------------------------------------------------------------- case

  function LowerChar(c: char): char {
    if 'A' <= c <= 'Z' then (c as int + 32) as char else c
  }

  function UpperChar(c: char): char {
    if 'a' <= c <= 'z' then (c as int - 32) as char else c
  }

  /** `str.lower()` on ASCII letters. */
  function Lower(s: string): (r: string)
    ensures |r| == |s|
  {
    if |s| == 0 then "" else [LowerChar(s[0])] + Lower(s[1..])
  }

  /** A string whose characters lower-case to those of `m` lower-cases to `m`. */
  lemma LowerTo(s: string, m: string)
    requires |s| == |m| && forall i :: 0 <= i < |s| ==> LowerChar(s[i]) == m[i]
    ensures Lower(s) == m
  {
    LowerChars(s);
  }

  /** Lower-casing works character by character. */
  lemma {:induction false} LowerChars(s: string)
    ensures forall i :: 0 <= i < |s| ==> Lower(s)[i] == LowerChar(s[i])
  {
    if |s| > 0 {
      LowerChars(s[1..]);
    }
  }

  /** Lower-casing twice is lower-casing once. */
  lemma LowerIdempotent(s: string)
    ensures Lower(Lower(s)) == Lower(s)
  {
    LowerChars(s);
    LowerChars(Lower(s));
    LowerTo(Lower(s), Lower(s));
  }

  /**
   * `str.title()`: a letter after a letter is lower-cased, any other letter
   * upper-cased; `prevCased` says whether the character before `s` was a letter.
   */
  function TitleFrom(s: string, prevCased: bool): (r: string)
    ensures |r| == |s|
  {
    if |s| == 0 then ""
    else [if prevCased then LowerChar(s[0]) else UpperChar(s[0])] + TitleFrom(s[1..], IsLetter(s[0]))
  }

  function Title(s: string): (r: string)
    ensures |r| == |s|
  {
    TitleFrom(s, false)
  }

  /** Each character is upper-cased at the start of a word and lower-cased after a letter. */
  lemma {:induction false} TitleFromChars(s: string, prevCased: bool)
    ensures forall i {:trigger TitleFrom(s, prevCased)[i]} :: 0 <= i < |s| ==>
      TitleFrom(s, prevCased)[i] == if (if i == 0 then prevCased else IsLetter(s[i - 1])) then LowerChar(s[i]) else UpperChar(s[i])
  {
    if |s| > 0 {
      TitleFromChars(s[1..], IsLetter(s[0]));
    }
  }

  /** `str.title()` upper-cases the first letter of every run of letters and lower-cases the rest. */
  lemma TitleChars(s: string)
    ensures forall i {:trigger Title(s)[i]} :: 0 <= i < |s| ==>
      Title(s)[i] == if i > 0 && IsLetter(s[i - 1]) then LowerChar(s[i]) else UpperChar(s[i])
  {
    TitleFromChars(s, false);
  }

  // ---------------------------------------------------------------- search

  predicate StartsWith(s: string, p: string) { |p| <= |s| && s[..|p|] == p }

  /** `p in s` for strings: some suffix of `s` starts with `p`. */
  predicate Contains(s: string, p: string)
    decreases |s|
  {
    StartsWith(s, p) || (|s| > 0 && Contains(s[1..], p))
  }

  // ---------------------------------------------------------------- replace

  /** `s.replace(pat, "")`: occurrences removed left to right, without rescanning the output. */
  function RemoveAll(s: string, pat: string): (r: string)
    requires |pat| > 0
    ensures |r| <= |s|
    decreases |s|
  {
    if |s| == 0 then ""
    else if StartsWith(s, pat) then RemoveAll(s[|pat|..], pat)
    else [s[0]] + RemoveAll(s[1..], pat)
  }

  /** Removing a single character leaves no copy of it and keeps every other character in order. */
  lemma {:induction false} RemoveCharGone(s: string, c: char)
    ensures c !in RemoveAll(s, [c])
    ensures forall d :: d != c ==> multiset(RemoveAll(s, [c]))[d] == multiset(s)[d]
    decreases |s|
  {
    if |s| > 0 {
      RemoveCharGone(s[1..], c);
      assert s == [s[0]] + s[1..];
      if StartsWith(s, [c]) {
        assert s[0] == c;
      } else {
        assert s[..1] == [s[0]];
      }
    }
  }

  /** A pattern whose first character never occurs is never removed. */
  lemma {:induction false} RemoveAllAbsent(s: string, pat: string)
    requires |pat| > 0 && pat[0] !in s
    ensures RemoveAll(s, pat) == s
    decreases |s|
  {
    if |s| > 0 {
      assert s[0] != pat[0];
      RemoveAllAbsent(s[1..], pat);
    }
  }

  lemma RemoveAllPrefix(pat: string, s: string)
    requires |pat| > 0
    ensures RemoveAll(pat + s, pat) == RemoveAll(s, pat)
  {
    assert StartsWith(pat + s, pat);
    assert (pat + s)[|pat|..] == s;
  }

  /** `s.replace(a, b)` for single characters. */
  function ReplaceChar(s: string, a: char, b: char): (r: string)
    ensures |r| == |s|
    ensures forall i :: 0 <= i < |s| ==> r[i] == (if s[i] == a then b else s[i])
  {
    if |s| == 0 then "" else [if s[0] == a then b else s[0]] + ReplaceChar(s[1..], a, b)
  }

  // ---------------------------------------------------------------- split and join

  function Count(s: string, c: char): nat {
    if |s| == 0 then 0 else (if s[0] == c then 1 else 0) + Count(s[1..], c)
  }

  /** `s.split(c)`: the pieces between the separators, empty pieces included. */
  function Split(s: string, c: char): (r: seq<string>)
    ensures |r| > 0
    decreases |s|
  {
    if |s| == 0 then [""]
    else
      var rest := Split(s[1..], c);
      if s[0] == c then [""] + rest else [[s[0]] + rest[0]] + rest[1..]
  }

  /** `sep.join(parts)`. */
  function Join(parts: seq<string>, sep: string): string {
    if |parts| == 0 then ""
    else if |parts| == 1 then parts[0]
    else parts[0] + sep + Join(parts[1..], sep)
  }

  /** One more piece than there are separators. */
  lemma {:induction false} SplitLength(s: string, c: char)
    ensures |Split(s, c)| == Count(s, c) + 1
    decreases |s|
  {
    if |s| > 0 { SplitLength(s[1..], c); }
  }

  /** No piece holds the separator. */
  lemma {:induction false} SplitPiecesClean(s: string, c: char)
    ensures forall i :: 0 <= i < |Split(s, c)| ==> c !in Split(s, c)[i]
    decreases |s|
  {
    if |s| > 0 { SplitPiecesClean(s[1..], c); }
  }

  /** Joining the pieces with the separator gives the text back. */
  lemma {:induction false} JoinSplit(s: string, c: char)
    ensures Join(Split(s, c), [c]) == s
    decreases |s|
  {
    if |s| > 0 {
      var rest := Split(s[1..], c);
      JoinSplit(s[1..], c);
      if s[0] == c {
        if |rest| == 1 {
          assert Join([""] + rest, [c]) == "" + [c] + rest[0];
        } else {
          assert ([""] + rest)[1..] == rest;
        }
      } else {
        var r := [[s[0]] + rest[0]] + rest[1..];
        if |rest| == 1 {
          assert Join(r, [c]) == [s[0]] + rest[0];
        } else {
          assert r[1..] == rest[1..];
          assert Join(r, [c]) == [s[0]] + rest[0] + [c] + Join(rest[1..], [c]);
          assert Join(rest, [c]) == rest[0] + [c] + Join(rest[1..], [c]);
        }
      }
    }
  }

  lemma {:induction false} SplitNoSeparator(s: string, c: char)
    requires c !in s
    ensures Split(s, c) == [s]
    decreases |s|
  {
    if |s| > 0 {
      SplitNoSeparator(s[1..], c);
      assert [s[0]] + s[1..] == s;
    }
  }

  /** Splitting `a + c + b`, where `a` holds no `c`, yields `a` and then the pieces of `b`. */
  lemma {:induction false} SplitAtFirst(a: string, c: char, b: string)
    requires c !in a
    ensures Split(a + [c] + b, c) == [a] + Split(b, c)
    decreases |a|
  {
    if |a| == 0 {
      assert a + [c] + b == [c] + b;
      assert ([c] + b)[1..] == b;
    } else {
      SplitAtFirst(a[1..], c, b);
      assert (a + [c] + b)[1..] == a[1..] + [c] + b;
      assert [a[0]] + a[1..] == a;
    }
  }

  /** The last piece of `a + c + b`, where `b` holds no `c`, is `b`. */
  lemma {:induction false} SplitLastPiece(a: string, c: char, b: string)
    requires c !in b
    ensures |Split(a + [c] + b, c)| >= 2
    ensures Split(a + [c] + b, c)[|Split(a + [c] + b, c)| - 1] == b
    decreases |a|
  {
    if |a| == 0 {
      SplitAtFirst(a, c, b);
      SplitNoSeparator(b, c);
    } else {
      SplitLastPiece(a[1..], c, b);
      assert (a + [c] + b)[1..] == a[1..] + [c] + b;
    }
  }

  // ---------------------------------------------------------------- whitespace split

  /** The longest prefix of `s` without whitespace. */
  function TakeWord(s: string): (w: string)
    ensures |w| <= |s| && w == s[..|w|]
    ensures NoSpace(w)
    ensures |w| < |s| ==> IsSpace(s[|w|])
  {
    if |s| == 0 || IsSpace(s[0]) then "" else [s[0]] + TakeWord(s[1..])
  }

  /** `s.split()`: the maximal runs of non-whitespace characters, in order. */
  function Words(s: string): (r: seq<string>)
    ensures forall i :: 0 <= i < |r| ==> r[i] != "" && NoSpace(r[i])
    decreases |s|
  {
    var t := TrimLeft(s);
    if t == "" then []
    else
      var w := TakeWord(t);
      assert w != "" by { assert !IsSpace(t[0]); }
      [w] + Words(t[|w|..])
  }

  lemma {:induction false} TakeWordOf(a: string, b: string)
    requires NoSpace(a)
    requires b == "" || IsSpace(b[0])
    ensures TakeWord(a + b) == a
    decreases |a|
  {
    if |a| == 0 {
      assert a + b == b;
    } else {
      assert (a + b)[1..] == a[1..] + b;
      TakeWordOf(a[1..], b);
    }
  }

  lemma {:induction false} WordsOfSpaced(sp: string, b: string)
    requires forall i :: 0 <= i < |sp| ==> IsSpace(sp[i])
    ensures Words(sp + b) == Words(b)
    decreases |sp|
  {
    if |sp| > 0 {
      assert (sp + b)[1..] == sp[1..] + b;
      WordsOfSpaced(sp[1..], b);
      assert TrimLeft(sp + b) == TrimLeft(sp[1..] + b);
    } else {
      assert sp + b == b;
    }
  }

  /** A word followed by whitespace heads the word list. */
  lemma WordsCons(a: string, sp: string, b: string)
    requires a != "" && NoSpace(a)
    requires sp != "" && forall i :: 0 <= i < |sp| ==> IsSpace(sp[i])
    ensures Words(a + sp + b) == [a] + Words(b)
  {
    var s := a + (sp + b);
    assert a + sp + b == s;
    assert s[0] == a[0];
    TrimLeftOfUnpadded(s);
    assert sp[0] == (sp + b)[0];
    TakeWordOf(a, sp + b);
    assert s[|a|..] == sp + b;
    WordsOfSpaced(sp, b);
    calc {
      Words(s);
      [TakeWord(s)] + Words(s[|TakeWord(s)|..]);
      [a] + Words(sp + b);
      [a] + Words(b);
    }
  }

  lemma WordsSingle(a: string)
    requires a != "" && NoSpace(a)
    ensures Words(a) == [a]
  {
    TrimLeftOfUnpadded(a);
    TakeWordOf(a, "");
    assert a + "" == a;
  }

  // ---------------------------------------------------------------- numbers

  function DigitChar(d: nat): char
    requires d < 10
  {
    ('0' as int + d) as char
  }

  function DigitVal(c: char): nat
    requires IsDigit(c)
  {
    c as int - '0' as int
  }

  /** `str(n)` for a non-negative integer. */
  function NatToString(n: nat): (s: string)
    ensures s != "" && AllDigits(s)
  {
    if n < 10 then [DigitChar(n)] else NatToString(n / 10) + [DigitChar(n % 10)]
  }

  /** `str(i)`: a minus sign before the digits of a negative number. */
  function IntToString(i: int): (s: string)
    ensures s != "" && NoSpace(s) && '-' !in s[1..]
  {
    if i < 0 then "-" + NatToString(-i) else NatToString(i)
  }

  /** The number a string of decimal digits denotes. */
  function ParseNat(s: string): nat
    requires AllDigits(s)
  {
    if |s| == 0 then 0 else 10 * ParseNat(s[..|s| - 1]) + DigitVal(s[|s| - 1])
  }

  lemma {:induction false} ParseNatToString(n: nat)
    ensures ParseNat(NatToString(n)) == n
  {
    if n >= 10 {
      var s := NatToString(n);
      assert s[..|s| - 1] == NatToString(n / 10);
      ParseNatToString(n / 10);
    }
  }

  /**
   * Python's `int(s)` on a string: surrounding whitespace is ignored, one
   * optional sign is allowed, and a digit body must follow (`DigitBody`);
   * anything else raises ValueError, which is None here.
   */
  function PyInt(s: string): (r: Option<int>)
    ensures r.Some? ==> Trim(s) != ""
  {
    var t := Trim(s);
    var neg := |t| > 0 && t[0] == '-';
    match DigitsValue(Unsigned(t))
    case Some(n) => Some(if neg then -(n as int) else n)
    case None => None
  }

  /** The text after one leading sign, if there is one. */
  function Unsigned(t: string): (u: string)
    ensures |u| <= |t|
  {
    if |t| > 0 && (t[0] == '+' || t[0] == '-') then t[1..] else t
  }

  /**
   * A decimal integer literal as `int()` reads it: digits, where a single
   * underscore may stand between two digits ("1_000").
   */
  predicate DigitBody(s: string) {
    s != "" && IsDigit(s[0]) && IsDigit(s[|s| - 1]) &&
    forall i :: 0 <= i < |s| ==> BodyCharAt(s, i)
  }

  /** Position `i` of a digit body holds a digit, or an underscore between two digits. */
  predicate BodyCharAt(s: string, i: int)
    requires 0 <= i < |s|
  {
    IsDigit(s[i]) || (s[i] == '_' && 0 < i < |s| - 1 && IsDigit(s[i - 1]) && IsDigit(s[i + 1]))
  }

  /** The characters of `s` other than `c`, in order. */
  function WithoutChar(s: string, c: char): (r: string)
    ensures c !in r && |r| <= |s|
  {
    if |s| == 0 then ""
    else if s[0] == c then WithoutChar(s[1..], c)
    else [s[0]] + WithoutChar(s[1..], c)
  }

  lemma {:induction false} WithoutCharAppend(a: string, b: string, c: char)
    ensures WithoutChar(a + b, c) == WithoutChar(a, c) + WithoutChar(b, c)
  {
    if |a| == 0 {
      assert a + b == b;
    } else {
      assert (a + b)[1..] == a[1..] + b;
      WithoutCharAppend(a[1..], b, c);
    }
  }

  lemma {:induction false} WithoutCharAbsent(s: string, c: char)
    requires c !in s
    ensures WithoutChar(s, c) == s
  {
    if |s| > 0 {
      assert c !in s[1..];
      WithoutCharAbsent(s[1..], c);
    }
  }

  /** Removing a single character with `replace` is the order-keeping filter. */
  lemma {:induction false} RemoveCharKeepsOrder(s: string, c: char)
    ensures RemoveAll(s, [c]) == WithoutChar(s, c)
  {
    if |s| > 0 {
      RemoveCharKeepsOrder(s[1..], c);
      if s[0] == c {
        assert StartsWith(s, [c]);
      } else {
        assert !StartsWith(s, [c]) by { assert s[..1] == [s[0]]; }
      }
    }
  }

  /**
   * The value of a digit body; None when the text is empty or is not one.
   * An underscore before the last digit is skipped together with it.
   */
  function DigitsValue(s: string): (r: Option<nat>)
    ensures r.Some? ==> s != ""
  {
    if |s| == 0 || !IsDigit(s[|s| - 1]) then None
    else if |s| == 1 then Some(DigitVal(s[0]))
    else
      var init := if s[|s| - 2] == '_' then s[..|s| - 2] else s[..|s| - 1];
      match DigitsValue(init)
      case Some(v) => Some(10 * v + DigitVal(s[|s| - 1]))
      case None => None
  }

  /** The body is a digit body exactly when its prefix before the last digit (and its underscore) is one. */
  lemma DigitBodyInit(s: string)
    requires |s| >= 2 && IsDigit(s[|s| - 1])
    ensures var init := if s[|s| - 2] == '_' then s[..|s| - 2] else s[..|s| - 1];
      DigitBody(s) <==> DigitBody(init)
  {
    var init := if s[|s| - 2] == '_' then s[..|s| - 2] else s[..|s| - 1];
    if DigitBody(s) {
      assert BodyCharAt(s, |s| - 2);
      assert |init| > 0 && IsDigit(init[|init| - 1]);
      forall i | 0 <= i < |init| ensures BodyCharAt(init, i) {
        assert BodyCharAt(s, i);
      }
    }
    if DigitBody(init) {
      forall i | 0 <= i < |s| ensures BodyCharAt(s, i) {
        if i < |init| {
          assert BodyCharAt(init, i);
        }
      }
    }
  }

  /**
   * `DigitsValue` accepts exactly the digit bodies, and its value is that of
   * the digits once the underscores are dropped.
   */
  lemma DigitsValueOf(s: string)
    ensures DigitsValue(s).Some? <==> DigitBody(s)
    ensures DigitsValue(s).Some? ==>
      AllDigits(WithoutChar(s, '_')) && DigitsValue(s).value == ParseNat(WithoutChar(s, '_'))
  {
    DigitsValueAccepts(s);
    DigitsValueDigits(s);
  }

  lemma {:induction false} DigitsValueAccepts(s: string)
    ensures DigitsValue(s).Some? <==> DigitBody(s)
    decreases |s|
  {
    if |s| > 1 && IsDigit(s[|s| - 1]) {
      var init := if s[|s| - 2] == '_' then s[..|s| - 2] else s[..|s| - 1];
      DigitsValueAccepts(init);
      DigitBodyInit(s);
    }
  }

  lemma {:induction false} DigitsValueDigits(s: string)
    ensures DigitsValue(s).Some? ==>
      AllDigits(WithoutChar(s, '_')) && DigitsValue(s).value == ParseNat(WithoutChar(s, '_'))
    decreases |s|
  {
    if |s| == 1 {
      if IsDigit(s[0]) {
        assert WithoutChar(s, '_') == s;
        assert s[..0] == [];
      }
    } else if |s| > 1 && IsDigit(s[|s| - 1]) {
      var init := if s[|s| - 2] == '_' then s[..|s| - 2] else s[..|s| - 1];
      DigitsValueDigits(init);
      if DigitsValue(init).Some? {
        var wi := WithoutChar(init, '_');
        WithoutCharLast(s);
        ParseNatSnoc(wi, s[|s| - 1]);
      }
    }
  }

  /** Dropping the underscores of a text ending in a digit: the prefix's, then that digit. */
  lemma WithoutCharLast(s: string)
    requires |s| > 1 && IsDigit(s[|s| - 1])
    ensures var init := if s[|s| - 2] == '_' then s[..|s| - 2] else s[..|s| - 1];
      WithoutChar(s, '_') == WithoutChar(init, '_') + [s[|s| - 1]]
  {
    var last := s[|s| - 1];
    var init := if s[|s| - 2] == '_' then s[..|s| - 2] else s[..|s| - 1];
    var gap := if s[|s| - 2] == '_' then "_" + [last] else [last];
    assert s == init + gap;
    WithoutCharAppend(init, gap, '_');
    assert WithoutChar(gap, '_') == [last];
  }

  lemma ParseNatSnoc(w: string, d: char)
    requires AllDigits(w) && IsDigit(d)
    ensures AllDigits(w + [d]) && ParseNat(w + [d]) == 10 * ParseNat(w) + DigitVal(d)
  {
    var x := w + [d];
    assert x[..|x| - 1] == w;
  }

  /** Success of `int()` is exactly a sign-less or signed digit body after trimming, with its value. */
  lemma PyIntAccepts(s: string)
    ensures PyInt(s).Some? <==> DigitBody(Unsigned(Trim(s)))
    ensures PyInt(s).Some? ==>
      AllDigits(WithoutChar(Unsigned(Trim(s)), '_')) &&
      var n := ParseNat(WithoutChar(Unsigned(Trim(s)), '_')) as int;
      PyInt(s).value == if Trim(s)[0] == '-' then -n else n
  {
    DigitsValueOf(Unsigned(Trim(s)));
  }

  /** `int()` reads the underscores of `1_000` and `+1_0` as digit separators. */
  lemma PyIntUnderscores()
    ensures PyInt("1_000") == Some(1000)
    ensures PyInt("+1_0") == Some(10)
  {
    assert "1_0"[..1] == "1";
    assert DigitsValue("1_0") == Some(10);
    assert "1_00"[..3] == "1_0";
    assert DigitsValue("1_00") == Some(100);
    assert "1_000"[..4] == "1_00";
    assert DigitsValue("1_000") == Some(1000);
    TrimOfNoSpace("1_000");
    TrimOfNoSpace("+1_0");
    assert Unsigned("+1_0") == "1_0";
  }

  /** A doubled or a leading underscore makes `int()` raise. */
  lemma PyIntRefusesUnderscores()
    ensures PyInt("1__0").None?
    ensures PyInt("_1").None?
  {
    TrimOfNoSpace("1__0");
    assert "1__0"[..2] == "1_";
    TrimOfNoSpace("_1");
    assert "_1"[..|"_1"| - 1] == "_";
  }

  /** `int(str(i)) == i`. */
  lemma PyIntOfIntToString(i: int)
    ensures PyInt(IntToString(i)) == Some(i)
  {
    var s := IntToString(i);
    if i < 0 {
      var d := NatToString(-i);
      assert s == "-" + d;
      TrimOfNoSpace(s);
      assert s[1..] == d;
      ParseNatToString(-i);
      DigitsBodyOfDigits(d);
      assert DigitsValue(s[1..]) == Some(-i);
    } else {
      ParseNatToString(i);
      PyIntOfDigits(s);
    }
  }

  /** A digit string is a digit body with the value `ParseNat` gives. */
  lemma DigitsBodyOfDigits(s: string)
    requires s != "" && AllDigits(s)
    ensures DigitsValue(s) == Some(ParseNat(s))
  {
    assert DigitBody(s);
    assert '_' !in s by { forall i | 0 <= i < |s| ensures s[i] != '_' { assert IsDigit(s[i]); } }
    WithoutCharAbsent(s, '_');
    DigitsValueOf(s);
  }

  /** A digit string is a valid Python integer literal with that value. */
  lemma PyIntOfDigits(s: string)
    requires s != "" && AllDigits(s)
    ensures PyInt(s) == Some(ParseNat(s) as int)
  {
    assert NoSpace(s) by {
      forall i | 0 <= i < |s| ensures !IsSpace(s[i]) { assert IsDigit(s[i]); }
    }
    TrimOfNoSpace(s);
    assert s[0] != '+' && s[0] != '-' by { assert IsDigit(s[0]); }
    DigitsBodyOfDigits(s);
  }

  /** Ten to the power `n`. */
  function Pow10(n: nat): nat {
    if n == 0 then 1 else 10 * Pow10(n - 1)
  }

  // ---------------------------------------------------------------- ordering

  /** Python's `a < b` on strings: lexicographic by code point. */
  predicate StrLess(a: string, b: string)
    decreases |a|
  {
    if |b| == 0 then false
    else if |a| == 0 then true
    else if a[0] != b[0] then a[0] < b[0]
    else StrLess(a[1..], b[1..])
  }

  /** Comparing texts with equal-length heads: the heads decide unless they agree. */
  lemma {:induction false} StrLessConcat(a1: string, r1: string, a2: string, r2: string)
    requires |a1| == |a2|
    ensures StrLess(a1 + r1, a2 + r2) == if a1 != a2 then StrLess(a1, a2) else StrLess(r1, r2)
    decreases |a1|
  {
    if |a1| > 0 {
      var x, y := a1 + r1, a2 + r2;
      assert x[0] == a1[0] && y[0] == a2[0];
      assert x[1..] == a1[1..] + r1 && y[1..] == a2[1..] + r2;
      StrLessConcat(a1[1..], r1, a2[1..], r2);
      if a1[0] == a2[0] {
        assert a1 != a2 <==> a1[1..] != a2[1..] by {
          assert a1 == [a1[0]] + a1[1..] && a2 == [a2[0]] + a2[1..];
        }
      }
    } else {
      assert a1 + r1 == r1 && a2 + r2 == r2;
    }
  }

  lemma {:induction false} StrLessIrreflexive(a: string)
    ensures !StrLess(a, a)
    decreases |a|
  {
    if |a| > 0 { StrLessIrreflexive(a[1..]); }
  }
}
