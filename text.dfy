/** String helpers with Python's meaning: `strip`, `startswith`, `in`,
    `replace`, `split`, `upper`/`lower`, `rstrip(c)`, decimal rendering
    (`str(n)`, `f"{n:02d}"`) and `int(s)` on digit strings.

    Whitespace is Python's (every character `str.isspace` accepts, which is
    also what `strip`, `split` and the regular expression `\s` use); case is
    the ASCII one. The source's inputs (URLs, names, LLM replies) are
    treated as sequences of code points. */
module Text {
  import opened Wrappers

  /** Python's whitespace (`str.isspace`): \t, \n, \v, \f, \r, the four
      separators \x1c to \x1f, the space, U+0085, the no-break space U+00A0,
      U+1680, U+2000 to U+200A, the line and paragraph separators U+2028 and
      U+2029, U+202F, U+205F and U+3000. */
  predicate IsSpace(c: char) {
    || '\t' <= c <= '\r'
    || '\U{001C}' <= c <= ' '
    || c == '\U{0085}' || c == '\U{00A0}' || c == '\U{1680}'
    || '\U{2000}' <= c <= '\U{200A}'
    || c == '\U{2028}' || c == '\U{2029}' || c == '\U{202F}' || c == '\U{205F}' || c == '\U{3000}'
  }

  predicate AllSpace(s: string) {
    forall i :: 0 <= i < |s| ==> IsSpace(s[i])
  }

  predicate HasNoSpace(s: string) {
    forall i :: 0 <= i < |s| ==> !IsSpace(s[i])
  }

  /** The first position at or after `i` that holds no whitespace (`|s|`
      when there is none). */
  function FirstNonSpace(s: string, i: nat): (k: nat)
    requires i <= |s|
    ensures i <= k <= |s|
    ensures forall j :: i <= j < k ==> IsSpace(s[j])
    ensures k == |s| || !IsSpace(s[k])
    decreases |s| - i
  {
    if i < |s| && IsSpace(s[i]) then FirstNonSpace(s, i + 1) else i
  }

  /** One past the last position before `j` that holds no whitespace (0 when
      there is none). */
  function EndNonSpace(s: string, j: nat): (k: nat)
    requires j <= |s|
    ensures k <= j
    ensures forall i :: k <= i < j ==> IsSpace(s[i])
    ensures k == 0 || !IsSpace(s[k - 1])
  {
    if j > 0 && IsSpace(s[j - 1]) then EndNonSpace(s, j - 1) else j
  }

  /** The leading whitespace run is the only one ending at a non-space. */
  lemma FirstNonSpaceUnique(s: string, k: nat)
    requires k <= |s| && (forall j :: 0 <= j < k ==> IsSpace(s[j]))
    requires k == |s| || !IsSpace(s[k])
    ensures FirstNonSpace(s, 0) == k
  {
  }

  /** The trailing whitespace run is the only one starting after a non-space. */
  lemma EndNonSpaceUnique(s: string, k: nat)
    requires k <= |s| && (forall j :: k <= j < |s| ==> IsSpace(s[j]))
    requires k == 0 || !IsSpace(s[k - 1])
    ensures EndNonSpace(s, |s|) == k
  {
  }

  /** `s.lstrip()` */
  function LStrip(s: string): (r: string)
    ensures |r| <= |s| && r == s[|s| - |r|..]
    ensures AllSpace(s[..|s| - |r|])
    ensures r == [] || !IsSpace(r[0])
  {
    s[FirstNonSpace(s, 0)..]
  }

  /** `s.rstrip()` */
  function RStrip(s: string): (r: string)
    ensures |r| <= |s| && r == s[..|r|]
    ensures AllSpace(s[|r|..])
    ensures r == [] || !IsSpace(r[|r| - 1])
  {
    s[..EndNonSpace(s, |s|)]
  }

  /** `s.strip()` */
  function Strip(s: string): (r: string) {
    RStrip(LStrip(s))
  }

  /** Stripping leaves the empty string exactly when the input is all whitespace. */
  lemma StripEmptyIff(s: string)
    ensures Strip(s) == [] <==> AllSpace(s)
  {
    var l := LStrip(s);
    assert l != [] ==> l[0] == s[|s| - |l|];
    if !AllSpace(s) {
      var i :| 0 <= i < |s| && !IsSpace(s[i]);
      assert l[i - (|s| - |l|)] == s[i];
    }
  }

  /** Text that starts with a non-space is its own `lstrip`. */
  lemma LStripNonSpace(s: string)
    requires s != [] && !IsSpace(s[0])
    ensures LStrip(s) == s
  {
    assert FirstNonSpace(s, 0) == 0;
  }

  /** Leading whitespace is stripped from the first part of a concatenation
      only, unless that part is whitespace throughout. */
  lemma LStripAppend(a: string, b: string)
    ensures !AllSpace(a) ==> LStrip(a + b) == LStrip(a) + b
    ensures AllSpace(a) ==> LStrip(a + b) == LStrip(b)
  {
    var ab := a + b;
    if AllSpace(a) {
      var k := |a| + FirstNonSpace(b, 0);
      forall j | 0 <= j < k ensures IsSpace(ab[j]) {
        if j >= |a| {
          assert ab[j] == b[j - |a|];
        }
      }
      assert k < |ab| ==> ab[k] == b[k - |a|];
      FirstNonSpaceUnique(ab, k);
      assert ab[k..] == b[k - |a|..];
    } else {
      var k := FirstNonSpace(a, 0);
      assert k < |a|;
      assert ab[k] == a[k];
      FirstNonSpaceUnique(ab, k);
      assert ab[k..] == a[k..] + b;
    }
  }

  /** `s.rstrip()` is the prefix `s[..k]` for the one `k` after which all is
      whitespace and before which the last character is not. */
  lemma RStripUnique(s: string, k: nat)
    requires k <= |s| && AllSpace(s[k..])
    requires k == 0 || !IsSpace(s[k - 1])
    ensures RStrip(s) == s[..k]
  {
    forall j | k <= j < |s| ensures IsSpace(s[j]) {
      assert s[j] == s[k..][j - k];
    }
    EndNonSpaceUnique(s, k);
  }

  /** Trailing whitespace is stripped from the end: the first character of a
      string that is not all whitespace survives `rstrip`. */
  lemma RStripCons(t: string)
    requires !AllSpace(t)
    ensures RStrip(t) == [t[0]] + RStrip(t[1..])
  {
    var m := EndNonSpace(t, |t|);
    assert m > 0;
    var u := t[1..];
    forall j | m - 1 <= j < |u| ensures IsSpace(u[j]) {
      assert u[j] == t[j + 1];
    }
    assert m - 1 > 0 ==> u[m - 2] == t[m - 1];
    EndNonSpaceUnique(u, m - 1);
    assert t[..m] == [t[0]] + u[..m - 1];
  }

  /** `s.strip()` is a slice `s[i..j]` with only whitespace outside it. */
  lemma StripSlice(s: string) returns (i: nat, j: nat)
    ensures i <= j <= |s| && Strip(s) == s[i..j]
    ensures forall k :: 0 <= k < i ==> IsSpace(s[k])
    ensures forall k :: j <= k < |s| ==> IsSpace(s[k])
    ensures i < j ==> !IsSpace(s[i]) && !IsSpace(s[j - 1])
  {
    var l := LStrip(s);
    var r := RStrip(l);
    i := |s| - |l|;
    j := i + |r|;
    assert l == s[i..];
    assert r == l[..|r|];
    forall k | 0 <= k < i ensures IsSpace(s[k]) {
      assert s[k] == s[..i][k];
    }
    forall k | j <= k < |s| ensures IsSpace(s[k]) {
      assert s[k] == l[k - i];
      assert l[k - i] == l[|r|..][k - j];
    }
  }

  /** `s.startswith(p)` */
  predicate StartsWith(s: string, p: string) {
    |p| <= |s| && s[..|p|] == p
  }

  /** `s.endswith(p)` */
  predicate EndsWith(s: string, p: string) {
    |p| <= |s| && s[|s| - |p|..] == p
  }

  /** `p in s` */
  predicate Contains(s: string, p: string) {
    exists i :: 0 <= i <= |s| - |p| && StartsWith(s[i..], p)
  }

  predicate OccursAt(s: string, p: string, i: nat) {
    i + |p| <= |s| && s[i..i + |p|] == p
  }

  /** An occurrence that starts with a non-space survives `lstrip`, shifted. */
  lemma LStripKeeps(s: string, p: string, i: nat) returns (j: nat)
    requires p != [] && !IsSpace(p[0]) && OccursAt(s, p, i)
    ensures OccursAt(LStrip(s), p, j)
  {
    var k := FirstNonSpace(s, 0);
    assert s[i] == p[0];
    assert k <= i;
    j := i - k;
    assert s[k..][j..j + |p|] == s[i..i + |p|];
  }

  /** An occurrence that ends with a non-space survives `rstrip`. */
  lemma RStripKeeps(s: string, p: string, i: nat)
    requires p != [] && !IsSpace(p[|p| - 1]) && OccursAt(s, p, i)
    ensures OccursAt(RStrip(s), p, i)
  {
    var m := EndNonSpace(s, |s|);
    assert s[i + |p| - 1] == p[|p| - 1];
    assert i + |p| <= m;
    assert s[..m][i..i + |p|] == s[i..i + |p|];
  }

  /** A nonempty pattern without whitespace that occurs in `s` still occurs
      in `s.strip()`. */
  lemma ContainsStrip(s: string, p: string)
    requires p != [] && HasNoSpace(p) && Contains(s, p)
    ensures Contains(Strip(s), p)
  {
    var i :| 0 <= i <= |s| - |p| && StartsWith(s[i..], p);
    assert s[i..][..|p|] == s[i..i + |p|];
    var k := LStripKeeps(s, p, i);
    RStripKeeps(LStrip(s), p, k);
    OccursContains(Strip(s), p, k);
  }

  lemma OccursContains(s: string, p: string, i: nat)
    requires OccursAt(s, p, i)
    ensures Contains(s, p)
  {
    assert s[i..][..|p|] == s[i..i + |p|];
  }

  /** An occurrence of `p` that starts with an occurrence of `q` is one of `q`. */
  lemma ContainsPrefixOf(s: string, p: string, q: string)
    requires Contains(s, p) && StartsWith(p, q)
    ensures Contains(s, q)
  {
    var i :| 0 <= i <= |s| - |p| && StartsWith(s[i..], p);
    assert s[i..][..|q|] == p[..|q|];
  }

  /** `s.replace(p, "")` on `a + p` leaves `a` when no occurrence of `p`
      starts inside `a`. */
  lemma {:induction false} RemoveAllTail(a: string, p: string)
    requires |p| > 0
    requires forall i :: 0 <= i < |a| ==> !StartsWith((a + p)[i..], p)
    ensures RemoveAll(a + p, p) == a
  {
    if a == [] {
      assert a + p == p && p[|p|..] == [];
    } else {
      assert (a + p)[0..] == a + p;
      assert (a + p)[1..] == a[1..] + p;
      forall i | 0 <= i < |a[1..]|
        ensures !StartsWith((a[1..] + p)[i..], p)
      {
        assert (a[1..] + p)[i..] == (a + p)[i + 1..];
      }
      RemoveAllTail(a[1..], p);
    }
  }

  /** `s.find(p)`, as an option: the first position where `p` occurs. */
  function IndexOf(s: string, p: string): (r: Option<nat>)
    ensures r.Some? ==> r.value + |p| <= |s| && StartsWith(s[r.value..], p)
  {
    if StartsWith(s, p) then Some(0)
    else if |s| == 0 then None
    else
      match IndexOf(s[1..], p)
      case None => None
      case Some(k) =>
        assert s[1..][k..] == s[k + 1..];
        Some(k + 1)
  }

  /** No occurrence starts before the position `IndexOf` reports, and it
      reports none exactly when `p` does not occur. */
  lemma {:induction false} IndexOfFirst(s: string, p: string)
    ensures IndexOf(s, p).Some? ==> forall j :: 0 <= j < IndexOf(s, p).value ==> !StartsWith(s[j..], p)
    ensures IndexOf(s, p).None? <==> !Contains(s, p)
  {
    if StartsWith(s, p) {
      assert s[0..] == s;
    } else if |s| > 0 {
      IndexOfFirst(s[1..], p);
      match IndexOf(s[1..], p)
      case Some(k) =>
        forall j | 1 <= j < k + 1 ensures !StartsWith(s[j..], p) {
          assert s[j..] == s[1..][j - 1..];
        }
        assert s[k + 1..] == s[1..][k..];
      case None =>
        forall i | 1 <= i <= |s| - |p| ensures !StartsWith(s[i..], p) {
          assert s[i..] == s[1..][i - 1..];
        }
    }
  }

  /** `s.replace(p, "")`: every non-overlapping occurrence of `p`, found from
      left to right, is removed. */
  function RemoveAll(s: string, p: string): (r: string)
    requires |p| > 0
    ensures |r| <= |s|
    decreases |s|
  {
    if StartsWith(s, p) then RemoveAll(s[|p|..], p)
    else if s == [] then []
    else [s[0]] + RemoveAll(s[1..], p)
  }

  /** `s.rstrip(c)` for a single character `c`. */
  function RStripChar(s: string, c: char): (r: string)
    ensures |r| <= |s| && r == s[..|r|]
    ensures forall i :: |r| <= i < |s| ==> s[i] == c
    ensures r == [] || r[|r| - 1] != c
  {
    if |s| > 0 && s[|s| - 1] == c then RStripChar(s[..|s| - 1], c) else s
  }

  /** The part of `s` before the first `c` (all of `s` when there is none):
      `s.split(c)[0]`. */
  function TakeUntil(s: string, c: char): (r: string)
    ensures |r| <= |s| && r == s[..|r|]
    ensures c !in r
    ensures |r| < |s| ==> s[|r|] == c
  {
    if s == [] || s[0] == c then [] else [s[0]] + TakeUntil(s[1..], c)
  }

  /** `s.split(c)` for a single-character separator. */
  function Split(s: string, c: char): (r: seq<string>)
    ensures |r| >= 1
    ensures forall i :: 0 <= i < |r| ==> c !in r[i]
    decreases |s|
  {
    var head := TakeUntil(s, c);
    if |head| == |s| then [s] else [head] + Split(s[|head| + 1..], c)
  }

  /** Splitting a string in which `c` does not occur gives that string alone;
      a `c` between two such strings splits them apart. */
  lemma {:induction false} SplitJoin(a: string, c: char, rest: string)
    requires c !in a
    ensures Split(a + [c] + rest, c) == [a] + Split(rest, c)
  {
    TakeUntilPrefix(a, c, rest);
    assert (a + [c] + rest)[|a| + 1..] == rest;
  }

  lemma {:induction false} SplitNoSep(a: string, c: char)
    requires c !in a
    ensures Split(a, c) == [a]
  {
    TakeUntilPrefix(a, c, []);
    assert a + [c] + [] == a + [c];
    assert TakeUntil(a, c) == a by {
      TakeUntilWhole(a, c);
    }
  }

  lemma {:induction false} TakeUntilWhole(a: string, c: char)
    requires c !in a
    ensures TakeUntil(a, c) == a
  {
    if a != [] {
      TakeUntilWhole(a[1..], c);
      assert [a[0]] + a[1..] == a;
    }
  }

  lemma {:induction false} TakeUntilPrefix(a: string, c: char, rest: string)
    requires c !in a
    ensures TakeUntil(a + [c] + rest, c) == a
  {
    if a == [] {
      assert (a + [c] + rest)[0] == c;
    } else {
      assert (a + [c] + rest)[1..] == a[1..] + [c] + rest;
      TakeUntilPrefix(a[1..], c, rest);
      assert [a[0]] + a[1..] == a;
    }
  }

  /** A segment followed by text that opens with the separator ends there. */
  lemma {:induction false} TakeUntilAtSep(a: string, c: char, t: string)
    requires c !in a && t != [] && t[0] == c
    ensures TakeUntil(a + t, c) == a
  {
    if a == [] {
      assert a + t == t;
    } else {
      assert (a + t)[1..] == a[1..] + t;
      TakeUntilAtSep(a[1..], c, t);
      assert [a[0]] + a[1..] == a;
    }
  }

  /** Text appended after a found occurrence does not move it. */
  lemma {:induction false} IndexOfAppend(s: string, t: string, p: string)
    requires IndexOf(s, p).Some?
    ensures IndexOf(s + t, p) == IndexOf(s, p)
  {
    assert (s + t)[..|p|] == s[..|p|];
    if !StartsWith(s, p) {
      assert (s + t)[1..] == s[1..] + t;
      IndexOfAppend(s[1..], t, p);
    }
  }

  /** Text appended after a separator does not change what comes before it. */
  lemma {:induction false} TakeUntilAppend(a: string, c: char, t: string)
    requires c in a
    ensures TakeUntil(a + t, c) == TakeUntil(a, c)
  {
    if a[0] != c {
      assert (a + t)[1..] == a[1..] + t;
      TakeUntilAppend(a[1..], c, t);
    }
  }

  /** The first whitespace-free run of a string that starts with a non-space. */
  function TakeWord(s: string): (w: string)
    ensures |w| <= |s| && w == s[..|w|]
    ensures HasNoSpace(w)
    ensures |w| < |s| ==> IsSpace(s[|w|])
  {
    if s == [] || IsSpace(s[0]) then [] else [s[0]] + TakeWord(s[1..])
  }

  /** `s.split()`: the maximal whitespace-free runs, in order. */
  function Words(s: string): (r: seq<string>)
    ensures forall i :: 0 <= i < |r| ==> r[i] != [] && HasNoSpace(r[i])
    decreases |s|
  {
    var t := LStrip(s);
    if t == [] then []
    else
      var w := TakeWord(t);
      [w] + Words(t[|w|..])
  }

  /** Words exist exactly when the string is not all whitespace, and the first
      word starts at the first non-space character. */
  lemma {:induction false} WordsHead(s: string)
    ensures Words(s) == [] <==> AllSpace(s)
    ensures !AllSpace(s) ==> exists k :: 0 <= k < |s| && AllSpace(s[..k]) && Words(s)[0][0] == s[k]
  {
    var t := LStrip(s);
    var k := |s| - |t|;
    if t == [] {
      assert s[..k] == s;
    } else {
      assert !AllSpace(s) by {
        assert s[k] == t[0];
      }
      var w := TakeWord(t);
      assert w != [] && w[0] == t[0] == s[k];
    }
  }

  function UpperChar(c: char): (r: char)
    ensures IsSpace(r) <==> IsSpace(c)
    ensures !('a' <= r <= 'z')
  {
    if 'a' <= c <= 'z' then (c as int - 32) as char else c
  }

  function LowerChar(c: char): char {
    if 'A' <= c <= 'Z' then (c as int + 32) as char else c
  }

  /** `s.upper()` on ASCII letters. */
  function Upper(s: string): (r: string)
    ensures |r| == |s| && forall i :: 0 <= i < |s| ==> r[i] == UpperChar(s[i])
  {
    seq(|s|, i requires 0 <= i < |s| => UpperChar(s[i]))
  }

  /** `s.lower()` on ASCII letters. */
  function Lower(s: string): (r: string)
    ensures |r| == |s| && forall i :: 0 <= i < |s| ==> r[i] == LowerChar(s[i])
  {
    seq(|s|, i requires 0 <= i < |s| => LowerChar(s[i]))
  }

  /** `sep.join(items)` */
  function Join(items: seq<string>, sep: string): string {
    if items == [] then []
    else if |items| == 1 then items[0]
    else items[0] + sep + Join(items[1..], sep)
  }

  // ---------------------------------------------------------------------
  // Decimal numbers

  predicate IsDigit(c: char) {
    '0' <= c <= '9'
  }

  predicate AllDigits(s: string) {
    forall i :: 0 <= i < |s| ==> IsDigit(s[i])
  }

  function DigitChar(d: nat): (c: char)
    requires d < 10
    ensures IsDigit(c)
  {
    (48 + d) as char
  }

  function DigitValue(c: char): nat
    requires IsDigit(c)
  {
    c as int - 48
  }

  /** `str(n)` for a non-negative integer. */
  function NatStr(n: nat): (r: string)
    ensures r != [] && AllDigits(r)
  {
    if n < 10 then [DigitChar(n)] else NatStr(n / 10) + [DigitChar(n % 10)]
  }

  /** `f"{n:02d}"`: at least two digits, zero-padded. */
  function Pad2(n: nat): (r: string)
    ensures r != [] && AllDigits(r)
    ensures n < 100 ==> |r| == 2
  {
    if n < 10 then "0" + NatStr(n)
    else
      assert n < 100 ==> NatStr(n) == NatStr(n / 10) + [DigitChar(n % 10)] && n / 10 < 10;
      NatStr(n)
  }

  /** The value of a digit string, most significant digit first. */
  function DigitsValue(s: string): nat
    requires AllDigits(s)
  {
    if s == [] then 0 else DigitsValue(s[..|s| - 1]) * 10 + DigitValue(s[|s| - 1])
  }

  /** `int(s)` on a string of ASCII digits; anything else (which makes
      `int` raise, or which the model does not cover) gives None. */
  function ParseNat(s: string): Option<nat> {
    if s != [] && AllDigits(s) then Some(DigitsValue(s)) else None
  }

  /** Rendering then parsing gives the number back. */
  lemma {:induction false} ParseNatStr(n: nat)
    ensures ParseNat(NatStr(n)) == Some(n)
  {
    var s := NatStr(n);
    if n >= 10 {
      ParseNatStr(n / 10);
      assert s[..|s| - 1] == NatStr(n / 10);
      assert DigitsValue(s) == DigitsValue(NatStr(n / 10)) * 10 + n % 10;
    } else {
      assert s[..|s| - 1] == [];
    }
  }

  lemma {:induction false} ParsePad2(n: nat)
    ensures ParseNat(Pad2(n)) == Some(n)
  {
    ParseNatStr(n);
    if n < 10 {
      var s := Pad2(n);
      assert s[..|s| - 1] == "0";
      assert DigitsValue("0") == 0 by {
        assert "0"[..0] == [];
      }
    }
  }

  lemma NatStrInjective(a: nat, b: nat)
    requires NatStr(a) == NatStr(b)
    ensures a == b
  {
    ParseNatStr(a);
    ParseNatStr(b);
  }

  lemma Pad2Injective(a: nat, b: nat)
    requires Pad2(a) == Pad2(b)
    ensures a == b
  {
    ParsePad2(a);
    ParsePad2(b);
  }

  lemma DigitsHaveNoChar(s: string, c: char)
    requires AllDigits(s) && !IsDigit(c)
    ensures c !in s
  {
  }

  /** Two digit strings each followed by a non-digit `c`: one is a prefix
      of the other only when they are equal. */
  lemma DigitsBeforeSep(a: string, b: string, c: char, s: string)
    requires AllDigits(a) && AllDigits(b) && !IsDigit(c)
    requires StartsWith(a + [c] + s, b + [c])
    ensures a == b
  {
    var x := a + [c] + s;
    var p := b + [c];
    assert x[|a|] == c && p[|b|] == c;
    assert forall i :: 0 <= i < |p| ==> x[i] == p[i];
    assert |a| == |b|;
    assert x[..|a|] == a && p[..|b|] == b;
  }

  /** Two texts each made of a digit string, a dash and a two-character
      part: when the second opens the first (followed by `rest`), both parts
      agree. */
  lemma DashPairPrefix(a: string, b: string, rest: string, c: string, d: string)
    requires AllDigits(a) && AllDigits(c) && |b| == 2 && |d| == 2
    requires StartsWith(a + "-" + b + rest, c + "-" + d)
    ensures a == c && b == d
  {
    var x := a + "-" + b + rest;
    var p := c + "-" + d;
    assert x == a + ['-'] + (b + rest);
    assert StartsWith(x, c + ['-']) by {
      assert p[..|c| + 1] == c + ['-'];
    }
    DigitsBeforeSep(a, c, '-', b + rest);
    var n := |a| + 1;
    assert x[n..n + 2] == b;
    assert p[n..n + 2] == d;
  }

  // ---------------------------------------------------------------------
  // Python's ordering of strings (code point by code point, a prefix first)

  predicate StrLe(a: string, b: string) {
    if a == [] then true
    else if b == [] then false
    else if a[0] != b[0] then a[0] < b[0]
    else StrLe(a[1..], b[1..])
  }

  lemma {:induction false} StrLeTotal(a: string, b: string)
    ensures StrLe(a, b) || StrLe(b, a)
  {
    if a != [] && b != [] && a[0] == b[0] {
      StrLeTotal(a[1..], b[1..]);
    }
  }

  lemma {:induction false} StrLeTrans(a: string, b: string, c: string)
    requires StrLe(a, b) && StrLe(b, c)
    ensures StrLe(a, c)
  {
    if a != [] && b != [] && c != [] && a[0] == b[0] == c[0] {
      StrLeTrans(a[1..], b[1..], c[1..]);
    }
  }
}
