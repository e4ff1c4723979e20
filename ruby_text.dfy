/**
 * The two pieces of Ruby's core library the adapter depends on:
 * `String#strip` and `Array#join`, with the facts about them the
 * adapter's contracts use.
 */
module RubyText {

  /** The characters `String#strip` removes: NUL, tab, line feed, vertical tab,
      form feed, carriage return and space. */
  predicate IsSpace(c: char) {
    c == '\0' || c == '\t' || c == '\n' || c == '\U{B}' || c == '\U{C}' || c == '\r' || c == ' '
  }

  /** Every character of `s` is whitespace (vacuously true of the empty string). */
  predicate AllSpace(s: string) {
    forall i :: 0 <= i < |s| ==> IsSpace(s[i])
  }

  /** `String#lstrip`: drops the leading whitespace. */
  function LStrip(s: string): (r: string)
    ensures |r| <= |s| && r == s[|s| - |r|..]
    ensures AllSpace(s[..|s| - |r|])
    ensures r != [] ==> !IsSpace(r[0])
  {
    if s != [] && IsSpace(s[0]) then LStrip(s[1..]) else s
  }

  /** `String#rstrip`: drops the trailing whitespace. */
  function RStrip(s: string): (r: string)
    ensures |r| <= |s| && r == s[..|r|]
    ensures AllSpace(s[|r|..])
    ensures r != [] ==> !IsSpace(r[|r| - 1])
  {
    if s != [] && IsSpace(s[|s| - 1]) then RStrip(s[..|s| - 1]) else s
  }

  /** Where the stripped text begins inside `s`. */
  function StripStart(s: string): (k: nat)
    ensures k <= |s| && AllSpace(s[..k])
  {
    |s| - |LStrip(s)|
  }

  /** `String#strip`: `s` with its leading and trailing whitespace removed. The
      result is the slice of `s` between two all-whitespace margins, it neither
      begins nor ends with whitespace, and it is empty exactly when `s` is blank. */
  function Strip(s: string): (r: string)
    ensures StripStart(s) + |r| <= |s| && r == s[StripStart(s)..StripStart(s) + |r|]
    ensures AllSpace(s[..StripStart(s)]) && AllSpace(s[StripStart(s) + |r|..])
    ensures r != [] ==> !IsSpace(r[0]) && !IsSpace(r[|r| - 1])
    ensures r == [] <==> AllSpace(s)
  {
    var t := LStrip(s);
    var r := RStrip(t);
    assert r == [] ==> s == s[..StripStart(s)] + t[|r|..];
    r
  }

  lemma {:induction false} LStripAfterBlank(a: string, t: string)
    requires AllSpace(a) && (t == [] || !IsSpace(t[0]))
    ensures LStrip(a + t) == t
  {
    if a == [] {
      assert a + t == t;
    } else {
      assert (a + t)[1..] == a[1..] + t;
      LStripAfterBlank(a[1..], t);
    }
  }

  lemma {:induction false} RStripBeforeBlank(t: string, b: string)
    requires AllSpace(b) && (t == [] || !IsSpace(t[|t| - 1]))
    ensures RStrip(t + b) == t
  {
    if b == [] {
      assert t + b == t;
    } else {
      assert (t + b)[..|t + b| - 1] == t + b[..|b| - 1];
      RStripBeforeBlank(t, b[..|b| - 1]);
    }
  }

  /** `Strip` is determined by its contract: whatever is framed by two blank
      margins and neither starts nor ends with whitespace is the stripped text. */
  lemma {:induction false} StripUnique(a: string, m: string, b: string)
    requires AllSpace(a) && AllSpace(b)
    requires m == [] || (!IsSpace(m[0]) && !IsSpace(m[|m| - 1]))
    ensures Strip(a + m + b) == m
  {
    if m == [] {
      assert AllSpace(a + m + b) by {
        forall i | 0 <= i < |a + m + b| ensures IsSpace((a + m + b)[i]) {
          if i >= |a| { assert (a + m + b)[i] == b[i - |a|]; }
        }
      }
    } else {
      assert a + m + b == a + (m + b);
      LStripAfterBlank(a, m + b);
      RStripBeforeBlank(m, b);
    }
  }

  /** Stripping twice is stripping once. */
  lemma {:induction false} StripIdempotent(s: string)
    ensures Strip(Strip(s)) == Strip(s)
  {
    var r := Strip(s);
    var e: string := [];
    assert AllSpace(e);
    assert e + r + e == r;
    StripUnique(e, r, e);
  }

  /** `Array#join(sep)`: the elements with `sep` between neighbours. `[]`
      joins to `""`, a single element to itself; a longer list starts with its
      first element followed by `sep`, and ends with its last element. */
  function Join(xs: seq<string>, sep: string): (r: string)
    ensures |xs| == 0 ==> r == ""
    ensures |xs| == 1 ==> r == xs[0]
    ensures |xs| >= 2 ==> |xs[0]| + |sep| <= |r| && r[..|xs[0]| + |sep|] == xs[0] + sep
    ensures |xs| >= 1 ==> |xs[|xs| - 1]| <= |r| && r[|r| - |xs[|xs| - 1]|..] == xs[|xs| - 1]
  {
    if |xs| == 0 then ""
    else if |xs| == 1 then xs[0]
    else xs[0] + sep + Join(xs[1..], sep)
  }

  /** Cuts `s` at every occurrence of `c`, keeping empty pieces (unlike Ruby's
      `String#split`, which drops trailing empty pieces). It undoes `Join` on a
      non-empty list none of whose elements contains the separator
      (`SplitOnJoin`); `[]` and `[""]` both join to `""`. */
  function SplitOn(s: string, c: char): (r: seq<string>)
    ensures |r| >= 1
  {
    if s == [] then [[]]
    else
      var t := SplitOn(s[1..], c);
      if s[0] == c then [[]] + t else [[s[0]] + t[0]] + t[1..]
  }

  /** `xs` has no element containing `c`. */
  predicate FreeOf(xs: seq<string>, c: char) {
    forall i :: 0 <= i < |xs| ==> c !in xs[i]
  }

  lemma {:induction false} SplitOnWithout(s: string, c: char)
    requires c !in s
    ensures SplitOn(s, c) == [s]
  {
    if s != [] {
      assert s[0] != c;
      SplitOnWithout(s[1..], c);
      assert [s[0]] + s[1..] == s;
    }
  }

  lemma {:induction false} SplitOnFirst(a: string, c: char, b: string)
    requires c !in a
    ensures SplitOn(a + [c] + b, c) == [a] + SplitOn(b, c)
  {
    var s := a + [c] + b;
    if a == [] {
      assert s[0] == c && s[1..] == b;
    } else {
      assert s[0] == a[0] && s[1..] == a[1..] + [c] + b;
      SplitOnFirst(a[1..], c, b);
      assert [a[0]] + a[1..] == a;
    }
  }

  /** Joining with a separator no element contains can be undone: the pieces
      are recovered in order and none is lost or merged. */
  lemma {:induction false} SplitOnJoin(xs: seq<string>, c: char)
    requires |xs| >= 1 && FreeOf(xs, c)
    ensures SplitOn(Join(xs, [c]), c) == xs
  {
    if |xs| == 1 {
      SplitOnWithout(xs[0], c);
    } else {
      assert c !in xs[0];
      SplitOnFirst(xs[0], c, Join(xs[1..], [c]));
      assert FreeOf(xs[1..], c) by {
        forall i | 0 <= i < |xs[1..]| ensures c !in xs[1..][i] { assert xs[1..][i] == xs[i + 1]; }
      }
      SplitOnJoin(xs[1..], c);
      assert [xs[0]] + xs[1..] == xs;
    }
  }
}
