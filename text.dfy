/**
 * String operations of Python and JavaScript on strings of Unicode scalar values.
 * Every module that cleans, splits or compares text uses these.
 */
module Text {
  import opened Wrappers

  /** Python's `str.isspace`; `str.strip()` and the regular-expression class `\s` use the same set. */
  predicate IsSpace(c: char)
  {
    ('\t' <= c <= '\r') || ('\U{1C}' <= c <= '\U{1F}') || c == ' ' || c == '\U{85}' || c == '\U{A0}'
    || c == '\U{1680}' || ('\U{2000}' <= c <= '\U{200A}') || c == '\U{2028}' || c == '\U{2029}'
    || c == '\U{202F}' || c == '\U{205F}' || c == '\U{3000}'
  }

  /** The white space and line terminators that JavaScript's `String.prototype.trim` removes. */
  predicate IsJsSpace(c: char)
  {
    ('\t' <= c <= '\r') || c == ' ' || c == '\U{A0}' || c == '\U{1680}' || ('\U{2000}' <= c <= '\U{200A}')
    || c == '\U{2028}' || c == '\U{2029}' || c == '\U{202F}' || c == '\U{205F}' || c == '\U{3000}' || c == '\U{FEFF}'
  }

  /** Which language's notion of white space a trim uses. */
  datatype Spaces = Python | JavaScript

  predicate Space(k: Spaces, c: char)
  {
    if k == Python then IsSpace(c) else IsJsSpace(c)
  }

  /** Every character of `s` is white space (so is the empty string). */
  predicate Blank(k: Spaces, s: string)
  {
    forall i :: 0 <= i < |s| ==> Space(k, s[i])
  }

  function TrimStart(k: Spaces, s: string): (r: string)
    ensures |r| <= |s|
  {
    if s != [] && Space(k, s[0]) then TrimStart(k, s[1..]) else s
  }

  function TrimEnd(k: Spaces, s: string): (r: string)
    ensures |r| <= |s|
  {
    if s != [] && Space(k, s[|s| - 1]) then TrimEnd(k, s[..|s| - 1]) else s
  }

  /** `TrimStart` removes exactly the leading white space. */
  lemma {:induction false} TrimStartFacts(k: Spaces, s: string)
    ensures var r := TrimStart(k, s);
      r == s[|s| - |r|..] && (r == [] || !Space(k, r[0])) && Blank(k, s[..|s| - |r|])
    decreases |s|
  {
    if s != [] && Space(k, s[0]) {
      TrimStartFacts(k, s[1..]);
      var r := TrimStart(k, s);
      assert s[1..][|s| - 1 - |r|..] == s[|s| - |r|..];
      var cut, rest := s[..|s| - |r|], s[1..][..|s| - 1 - |r|];
      forall i | 0 <= i < |cut| ensures Space(k, cut[i]) {
        if i > 0 {
          assert cut[i] == rest[i - 1];
        }
      }
    }
  }

  /** `TrimEnd` removes exactly the trailing white space. */
  lemma {:induction false} TrimEndFacts(k: Spaces, s: string)
    ensures var r := TrimEnd(k, s);
      r == s[..|r|] && (r == [] || !Space(k, r[|r| - 1])) && Blank(k, s[|r|..])
    decreases |s|
  {
    if s != [] && Space(k, s[|s| - 1]) {
      TrimEndFacts(k, s[..|s| - 1]);
      var r := TrimEnd(k, s);
      assert s[..|s| - 1][..|r|] == s[..|r|];
      assert forall i :: |r| <= i < |s| - 1 ==> s[i] == s[..|s| - 1][i];
    }
  }

  /** `s.strip()` in Python (k == Python) or `s.trim()` in JavaScript (k == JavaScript). */
  function Trim(k: Spaces, s: string): (r: string)
    ensures |r| <= |s|
  {
    TrimEnd(k, TrimStart(k, s))
  }

  /** Python's `s.strip()`. */
  function Strip(s: string): (r: string)
    ensures |r| <= |s|
  {
    Trim(Python, s)
  }

  /**
   * What a trim keeps: a contiguous slice of the input that neither starts nor
   * ends with white space, and everything cut off on either side is white space.
   */
  lemma TrimSlice(k: Spaces, s: string) returns (i: nat, j: nat)
    ensures i <= j <= |s| && Trim(k, s) == s[i..j]
    ensures Blank(k, s[..i]) && Blank(k, s[j..])
    ensures Trim(k, s) == [] || (!Space(k, Trim(k, s)[0]) && !Space(k, Trim(k, s)[|Trim(k, s)| - 1]))
  {
    var a := TrimStart(k, s);
    TrimStartFacts(k, s);
    var b := TrimEnd(k, a);
    TrimEndFacts(k, a);
    i := |s| - |a|;
    j := i + |b|;
    assert a == s[i..];
    assert b == a[..|b|] == s[i..j];
    assert a[|b|..] == s[j..];
    if b != [] {
      assert b[0] == a[0];
    }
  }

  /** Trimming removes white space only. */
  lemma StripKeepsVisible(s: string)
    ensures Visible(Strip(s)) == Visible(s)
  {
    var i, j := TrimSlice(Python, s);
    var pre, mid, post := s[..i], s[i..j], s[j..];
    assert s == (pre + mid) + post;
    VisibleAppend(pre + mid, post);
    VisibleAppend(pre, mid);
    VisibleBlank(pre);
    VisibleBlank(post);
  }

  /** A trim yields the empty string exactly when its input is all white space. */
  lemma TrimEmptyIffBlank(k: Spaces, s: string)
    ensures Trim(k, s) == [] <==> Blank(k, s)
  {
    var i, j := TrimSlice(k, s);
    if Trim(k, s) == [] {
      assert i == j;
      forall n | 0 <= n < |s| ensures Space(k, s[n]) {
        if n < i { assert s[n] == s[..i][n]; } else { assert s[n] == s[j..][n - j]; }
      }
    } else {
      assert !Space(k, s[i]);
    }
  }

  /** Trimming twice is the same as trimming once. */
  lemma TrimIdempotent(k: Spaces, s: string)
    ensures Trim(k, Trim(k, s)) == Trim(k, s)
  {
    var t := Trim(k, s);
    var i, j := TrimSlice(k, s);
    if t != [] {
      assert TrimStart(k, t) == t;
      assert TrimEnd(k, t) == t;
    }
  }

  /** JavaScript's `a || b` on possibly missing strings: the first that is present and non-empty. */
  function OrElse(a: Option<string>, b: string): (r: string)
    ensures a.Some? && a.value != "" ==> r == a.value
    ensures a.None? || a.value == "" ==> r == b
  {
    if a.Some? && a.value != "" then a.value else b
  }

  /** Python's `sub in s` (and JavaScript's `s.includes(sub)`). */
  predicate Contains(s: string, sub: string)
    decreases |s|
  {
    sub <= s || (s != [] && Contains(s[1..], sub))
  }

  /** `Contains` holds exactly when `sub` occurs at some position. */
  lemma {:induction false} ContainsIff(s: string, sub: string)
    ensures Contains(s, sub) <==> exists i :: 0 <= i <= |s| && sub <= s[i..]
    decreases |s|
  {
    if sub <= s {
      assert s[0..] == s;
    } else if s == [] {
      forall i | 0 <= i <= |s| ensures !(sub <= s[i..]) {
        assert s[i..] == s;
      }
    } else {
      ContainsIff(s[1..], sub);
      assert Contains(s, sub) == Contains(s[1..], sub);
      if Contains(s[1..], sub) {
        var i :| 0 <= i <= |s[1..]| && sub <= s[1..][i..];
        assert s[1..][i..] == s[i + 1..];
      } else {
        forall i | 0 <= i <= |s| ensures !(sub <= s[i..]) {
          if i > 0 {
            assert s[1..][i - 1..] == s[i..];
          } else {
            assert s[i..] == s;
          }
        }
      }
    }
  }

  /** An occurrence inside `s` is also an occurrence inside any extension of `s`. */
  lemma ContainsAppend(s: string, t: string, sub: string)
    requires Contains(s, sub)
    ensures Contains(s + t, sub) && Contains(t + s, sub)
  {
    ContainsIff(s, sub);
    var i :| 0 <= i <= |s| && sub <= s[i..];
    ContainsIff(s + t, sub);
    assert sub <= (s + t)[i..];
    ContainsIff(t + s, sub);
    assert (t + s)[|t| + i..] == s[i..];
  }

  /** A pattern with a character the text lacks does not occur in it. */
  lemma {:induction false} MissingCharNotContained(s: string, sub: string, c: char)
    requires c in sub && c !in s
    ensures !Contains(s, sub)
    decreases |s|
  {
    if s != [] {
      MissingCharNotContained(s[1..], sub, c);
      assert c !in s[1..];
    }
  }

  /** The number of non-overlapping occurrences of `pat`, counted left to right: Python's `s.count(pat)`. */
  function Count(s: string, pat: string): (n: nat)
    requires |pat| > 0
    decreases |s|
  {
    if s == [] then 0
    else if pat <= s then 1 + Count(s[|pat|..], pat)
    else Count(s[1..], pat)
  }

  /** `s.count(pat) > 0` exactly when `pat in s`. */
  lemma {:induction false} CountPositiveIffContains(s: string, pat: string)
    requires |pat| > 0
    ensures Count(s, pat) > 0 <==> Contains(s, pat)
    decreases |s|
  {
    if s != [] && !(pat <= s) {
      CountPositiveIffContains(s[1..], pat);
    }
  }

  /**
   * Python's `s.replace(pat, rep)`: every non-overlapping occurrence of `pat`,
   * found left to right, is replaced by `rep`.
   */
  function ReplaceAll(s: string, pat: string, rep: string): (r: string)
    requires |pat| > 0
    decreases |s|
  {
    if s == [] then []
    else if pat <= s then rep + ReplaceAll(s[|pat|..], pat, rep)
    else [s[0]] + ReplaceAll(s[1..], pat, rep)
  }

  lemma Distribute(n: int, d: int)
    ensures (1 + n) * d == d + n * d
  {
  }

  /** Replacement changes the length by the replacement's difference once per counted occurrence. */
  lemma {:induction false} ReplaceAllLength(s: string, pat: string, rep: string)
    requires |pat| > 0
    ensures |ReplaceAll(s, pat, rep)| == |s| + Count(s, pat) * (|rep| - |pat|)
    decreases |s|
  {
    if s == [] {
    } else if pat <= s {
      var tail := s[|pat|..];
      ReplaceAllLength(tail, pat, rep);
      var n, d := Count(tail, pat), |rep| - |pat|;
      assert Count(s, pat) == 1 + n;
      assert |ReplaceAll(s, pat, rep)| == |rep| + |ReplaceAll(tail, pat, rep)|;
      assert |ReplaceAll(tail, pat, rep)| == |tail| + n * d;
      Distribute(n, d);
    } else {
      ReplaceAllLength(s[1..], pat, rep);
      assert Count(s, pat) == Count(s[1..], pat);
      assert |ReplaceAll(s, pat, rep)| == 1 + |ReplaceAll(s[1..], pat, rep)|;
    }
  }

  /** A string with no occurrence of the pattern is left unchanged. */
  lemma {:induction false} ReplaceAllAbsent(s: string, pat: string, rep: string)
    requires |pat| > 0 && !Contains(s, pat)
    ensures ReplaceAll(s, pat, rep) == s
    decreases |s|
  {
    if s != [] {
      ReplaceAllAbsent(s[1..], pat, rep);
    }
  }

  /** The first index at which `pat` occurs in `s`. */
  function Find(s: string, pat: string): (r: Option<nat>)
    ensures r.Some? ==> r.value + |pat| <= |s| && pat <= s[r.value..]
    ensures r.Some? ==> forall k :: 0 <= k < r.value ==> !(pat <= s[k..])
    ensures r.None? ==> forall k :: 0 <= k <= |s| ==> !(pat <= s[k..])
    decreases |s|
  {
    if pat <= s then Some(0)
    else if s == [] then None
    else match Find(s[1..], pat)
      case None => (assert forall k :: 1 <= k <= |s| ==> s[k..] == s[1..][k - 1..]; None)
      case Some(i) => (assert forall k :: 1 <= k <= i + 1 ==> s[k..] == s[1..][k - 1..]; Some(i + 1))
  }

  /** A pattern whose first character does not occur in `p` is first found just after `p`. */
  lemma FindAfter(p: string, pat: string, rest: string)
    requires |pat| > 0 && pat[0] !in p
    ensures Find(p + pat + rest, pat) == Some(|p|)
  {
    var s := p + pat + rest;
    assert s[|p|..] == pat + rest;
  }

  /**
   * `re.sub(open + '.*?' + close, '', s, flags=re.DOTALL)` for literal
   * delimiters: from left to right, each `open` up to the nearest following
   * `close` is deleted. An `open` with no `close` after it ends the scan, since
   * no later `open` can be closed either.
   */
  function RemoveSpans(s: string, open: string, close: string): (r: string)
    requires |open| > 0
    ensures |r| <= |s|
    decreases |s|
  {
    if s == [] then []
    else if open <= s then
      match Find(s[|open|..], close)
      case Some(j) => RemoveSpans(s[|open| + j + |close|..], open, close)
      case None => s
    else [s[0]] + RemoveSpans(s[1..], open, close)
  }

  /** Text without an opening delimiter is left unchanged. */
  lemma {:induction false} RemoveSpansAbsent(s: string, open: string, close: string)
    requires |open| > 0 && !Contains(s, open)
    ensures RemoveSpans(s, open, close) == s
    decreases |s|
  {
    if s != [] {
      RemoveSpansAbsent(s[1..], open, close);
    }
  }

  /** Text before the first character of the opening delimiter is kept as it is. */
  lemma {:induction false} RemoveSpansPrefix(p: string, x: string, open: string, close: string)
    requires |open| > 0 && open[0] !in p
    ensures RemoveSpans(p + x, open, close) == p + RemoveSpans(x, open, close)
    decreases |p|
  {
    if p == [] {
      assert p + x == x;
    } else {
      assert (p + x)[0] == p[0] && (p + x)[1..] == p[1..] + x;
      assert !(open <= p + x);
      RemoveSpansPrefix(p[1..], x, open, close);
      assert p == [p[0]] + p[1..];
    }
  }

  /** A span at the start whose body lacks the closing delimiter's first character is deleted whole. */
  lemma RemoveSpansAtOpen(open: string, t: string, close: string, rest: string)
    requires |open| > 0 && |close| > 0 && close[0] !in t
    ensures RemoveSpans(open + t + close + rest, open, close) == RemoveSpans(rest, open, close)
  {
    var x := open + t + close + rest;
    assert x != [] && open <= x;
    assert x[|open|..] == t + close + rest;
    FindAfter(t, close, rest);
    assert x[|open| + |t| + |close|..] == rest;
  }

  /** A span whose body lacks the closing delimiter's first character is deleted whole. */
  lemma RemoveSpansSpan(p: string, open: string, t: string, close: string, rest: string)
    requires |open| > 0 && |close| > 0 && open[0] !in p && close[0] !in t
    ensures RemoveSpans(p + open + t + close + rest, open, close) == p + RemoveSpans(rest, open, close)
  {
    var x := open + t + close + rest;
    assert p + open + t + close + rest == p + x;
    RemoveSpansPrefix(p, x, open, close);
    RemoveSpansAtOpen(open, t, close, rest);
  }

  /** The first index of character `c` in `s`; it exists because `c in s`. */
  function IndexOf(s: string, c: char): (i: nat)
    requires c in s
    ensures i < |s| && s[i] == c && c !in s[..i]
  {
    if s[0] == c then 0 else IndexOf(s[1..], c) + 1
  }

  /** Python's `s.split(sep)` for a one-character separator: empty pieces are kept. */
  function Split(s: string, sep: char): (r: seq<string>)
    ensures |r| >= 1
    ensures forall i :: 0 <= i < |r| ==> sep !in r[i]
    decreases |s|
  {
    if sep !in s then [s]
    else
      var i := IndexOf(s, sep);
      [s[..i]] + Split(s[i + 1..], sep)
  }

  /** Python's `sep.join(parts)` and JavaScript's `parts.join(sep)`. */
  function Join(parts: seq<string>, sep: string): (r: string)
  {
    if parts == [] then ""
    else if |parts| == 1 then parts[0]
    else parts[0] + sep + Join(parts[1..], sep)
  }

  /** Splitting at a character and joining the pieces with that character gives back the input. */
  lemma {:induction false} JoinSplit(s: string, sep: char)
    ensures Join(Split(s, sep), [sep]) == s
    decreases |s|
  {
    if sep in s {
      var i := IndexOf(s, sep);
      var rest := Split(s[i + 1..], sep);
      JoinSplit(s[i + 1..], sep);
      assert Split(s, sep) == [s[..i]] + rest;
      assert Join([s[..i]] + rest, [sep]) == s[..i] + [sep] + Join(rest, [sep]) by {
        assert ([s[..i]] + rest)[1..] == rest;
      }
      assert s == s[..i] + [sep] + s[i + 1..];
    }
  }

  /** ASCII case folding: Python's `lower()` and JavaScript's `toLowerCase()` on the letters A to Z. */
  function LowerChar(c: char): (r: char)
  {
    if 'A' <= c <= 'Z' then (c as int - 'A' as int + 'a' as int) as char else c
  }

  function Lower(s: string): (r: string)
    ensures |r| == |s| && forall i :: 0 <= i < |s| ==> r[i] == LowerChar(s[i])
  {
    if s == [] then [] else [LowerChar(s[0])] + Lower(s[1..])
  }

  /** The characters of `s` that are not white space, in order. */
  function Visible(s: string): (r: string)
  {
    if s == [] then [] else (if IsSpace(s[0]) then [] else [s[0]]) + Visible(s[1..])
  }

  lemma {:induction false} VisibleAppend(a: string, b: string)
    ensures Visible(a + b) == Visible(a) + Visible(b)
    decreases |a|
  {
    if a == [] {
      assert a + b == b;
    } else {
      assert (a + b)[0] == a[0];
      assert (a + b)[1..] == a[1..] + b;
      VisibleAppend(a[1..], b);
    }
  }

  lemma {:induction false} VisibleBlank(s: string)
    requires Blank(Python, s)
    ensures Visible(s) == []
    decreases |s|
  {
    if s != [] {
      VisibleBlank(s[1..]);
    }
  }

  /**
   * Python's `re.sub(r'\s+', ' ', s)`: each maximal run of white space becomes one space.
   */
  function CollapseSpace(s: string): (r: string)
    ensures s == [] <==> r == []
    ensures s != [] ==> (r[0] == ' ' <==> IsSpace(s[0]))
    ensures forall i :: 0 <= i < |r| ==> IsSpace(r[i]) ==> r[i] == ' '
    ensures forall i :: 0 <= i < |r| - 1 ==> !(r[i] == ' ' && r[i + 1] == ' ')
    decreases |s|
  {
    if s == [] then []
    else if IsSpace(s[0]) then
      TrimStartFacts(Python, s);
      assert |TrimStart(Python, s)| < |s|;
      [' '] + CollapseSpace(TrimStart(Python, s))
    else [s[0]] + CollapseSpace(s[1..])
  }

  /** Collapsing white space keeps every other character, in order. */
  lemma {:induction false} CollapseSpaceKeepsVisible(s: string)
    ensures Visible(CollapseSpace(s)) == Visible(s)
    decreases |s|
  {
    if s == [] {
    } else if IsSpace(s[0]) {
      var t := TrimStart(Python, s);
      TrimStartFacts(Python, s);
      CollapseSpaceKeepsVisible(t);
      var cut := s[..|s| - |t|];
      assert s == cut + t;
      VisibleAppend(cut, t);
      VisibleBlank(cut);
      VisibleAppend([' '], CollapseSpace(t));
    } else {
      VisibleAppend([s[0]], CollapseSpace(s[1..]));
      CollapseSpaceKeepsVisible(s[1..]);
      assert s == [s[0]] + s[1..];
      VisibleAppend([s[0]], s[1..]);
    }
  }

  /** The decimal digit for `d`. */
  function Digit(d: nat): (c: char)
    requires d < 10
    ensures '0' <= c <= '9'
  {
    ('0' as int + d) as char
  }

  /** Python's `str(n)` / an f-string field for a non-negative integer. */
  function NatToString(n: nat): (r: string)
    ensures |r| >= 1
    ensures forall i :: 0 <= i < |r| ==> '0' <= r[i] <= '9'
    decreases n
  {
    if n < 10 then [Digit(n)] else NatToString(n / 10) + [Digit(n % 10)]
  }

  /** The value of a string of decimal digits. */
  function DigitsValue(s: string): (n: nat)
    requires forall i :: 0 <= i < |s| ==> '0' <= s[i] <= '9'
  {
    if s == [] then 0 else 10 * DigitsValue(s[..|s| - 1]) + (s[|s| - 1] as int - '0' as int)
  }

  /** Reading back a rendered number gives the number. */
  lemma {:induction false} NatToStringRoundTrip(n: nat)
    ensures DigitsValue(NatToString(n)) == n
    decreases n
  {
    if n >= 10 {
      NatToStringRoundTrip(n / 10);
      var s := NatToString(n);
      assert s[..|s| - 1] == NatToString(n / 10);
    }
  }

  predicate AllDigits(s: string)
  {
    forall i :: 0 <= i < |s| ==> '0' <= s[i] <= '9'
  }

  /**
   * Python's `int(s)` on a string: surrounding white space is ignored, then an
   * optional sign and at least one decimal digit; anything else raises
   * `ValueError` (None here).
   */
  function PyInt(s: string): (r: Option<int>)
  {
    var t := Strip(s);
    if t != [] && (t[0] == '+' || t[0] == '-') then
      var d := t[1..];
      if d != [] && AllDigits(d) then Some(if t[0] == '-' then 0 - DigitsValue(d) as int else DigitsValue(d)) else None
    else if t != [] && AllDigits(t) then Some(DigitsValue(t))
    else None
  }

  /** `int(str(n)) == n`, and a blank string does not parse. */
  lemma PyIntRoundTrip(n: nat, blank: string)
    requires Blank(Python, blank)
    ensures PyInt(NatToString(n)) == Some(n)
    ensures PyInt(blank) == None
  {
    var s := NatToString(n);
    assert TrimStart(Python, s) == s;
    assert TrimEnd(Python, s) == s;
    NatToStringRoundTrip(n);
    TrimEmptyIffBlank(Python, blank);
  }

  /** Lexicographic order by character code, as Python compares strings with `<`. */
  predicate StrLess(a: string, b: string)
  {
    if a == [] then b != []
    else if b == [] then false
    else a[0] < b[0] || (a[0] == b[0] && StrLess(a[1..], b[1..]))
  }

  /** `StrLess` is a strict total order. */
  lemma {:induction false} StrLessIrreflexive(a: string)
    ensures !StrLess(a, a)
  {
    if a != [] {
      StrLessIrreflexive(a[1..]);
    }
  }

  lemma {:induction false} StrLessTransitive(a: string, b: string, c: string)
    requires StrLess(a, b) && StrLess(b, c)
    ensures StrLess(a, c)
  {
    if a != [] && a[0] == b[0] && b[0] == c[0] {
      StrLessTransitive(a[1..], b[1..], c[1..]);
    }
  }

  lemma {:induction false} StrLessTotal(a: string, b: string)
    ensures a == b || StrLess(a, b) || StrLess(b, a)
  {
    if a != [] && b != [] && a[0] == b[0] {
      StrLessTotal(a[1..], b[1..]);
      if a[1..] == b[1..] {
        assert a == [a[0]] + a[1..] && b == [b[0]] + b[1..];
      }
    }
  }

  lemma {:induction false} StrLessAsymmetric(a: string, b: string)
    requires StrLess(a, b)
    ensures !StrLess(b, a)
  {
    if a != [] && a[0] == b[0] {
      StrLessAsymmetric(a[1..], b[1..]);
    }
  }

  /** Not-less is transitive, which makes `StrLess` usable to pick a least element. */
  lemma StrNotLessTransitive(a: string, b: string, c: string)
    requires !StrLess(b, a) && !StrLess(c, b)
    ensures !StrLess(c, a)
  {
    StrLessTotal(a, b);
    StrLessTotal(b, c);
    if a != b && b != c {
      StrLessTransitive(a, b, c);
      StrLessAsymmetric(a, c);
    }
  }
}
