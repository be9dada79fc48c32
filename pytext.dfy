/**
 * The Python string and sequence operations both scripts rely on:
 * `str.strip()` with no argument, BeautifulSoup's `get_text(strip=True)`,
 * truthiness of a string, the substring test `p in s`, slicing `s[:n]` and
 * splitting text into lines.
 */
module PyText {

  import opened Wrappers

  /** Python's `str.isspace()` on one code point: the characters `str.strip()` removes. */
  predicate IsSpace(c: char) {
    ('\t' <= c <= '\r') || ('\U{1C}' <= c <= '\U{1F}') || c == ' '
    || c == '\U{85}' || c == '\U{A0}' || c == '\U{1680}'
    || ('\U{2000}' <= c <= '\U{200A}') || c == '\U{2028}' || c == '\U{2029}'
    || c == '\U{202F}' || c == '\U{205F}' || c == '\U{3000}'
  }

  predicate AllSpace(s: string) {
    forall k :: 0 <= k < |s| ==> IsSpace(s[k])
  }

  /** No leading and no trailing whitespace. */
  predicate IsStripped(s: string) {
    s == [] || (!IsSpace(s[0]) && !IsSpace(s[|s| - 1]))
  }

  /** `str.lstrip()`: the suffix left after the leading whitespace. */
  function TrimLeft(s: string): (r: string)
    ensures |r| <= |s| && r == s[|s| - |r|..]
    ensures AllSpace(s[..|s| - |r|])
    ensures r == [] || !IsSpace(r[0])
  {
    if |s| > 0 && IsSpace(s[0]) then
      var rest := s[1..];
      var r := TrimLeft(rest);
      var m := |rest| - |r|;
      assert rest[m..] == s[m + 1..];
      assert forall k :: 0 <= k < m ==> rest[..m][k] == s[k + 1];
      r
    else s
  }

  /** `str.rstrip()`: the prefix left before the trailing whitespace. */
  function TrimRight(s: string): (r: string)
    ensures |r| <= |s| && r == s[..|r|]
    ensures AllSpace(s[|r|..])
    ensures r == [] || !IsSpace(r[|r| - 1])
  {
    if |s| > 0 && IsSpace(s[|s| - 1]) then
      var front := s[..|s| - 1];
      var r := TrimRight(front);
      assert front[..|r|] == s[..|r|];
      assert s[|r|..] == front[|r|..] + [s[|s| - 1]];
      r
    else s
  }

  /** `str.strip()`. */
  function Strip(s: string): (r: string)
    ensures IsStripped(r)
    ensures |r| <= |s|
  {
    TrimRight(TrimLeft(s))
  }

  lemma {:induction false} TrimLeftPast(lead: string, t: string)
    requires AllSpace(lead)
    requires t == [] || !IsSpace(t[0])
    ensures TrimLeft(lead + t) == t
  {
    if lead == [] {
      assert lead + t == t;
    } else {
      assert (lead + t)[1..] == lead[1..] + t;
      TrimLeftPast(lead[1..], t);
    }
  }

  lemma {:induction false} TrimRightPast(t: string, trail: string)
    requires AllSpace(trail)
    requires t == [] || !IsSpace(t[|t| - 1])
    ensures TrimRight(t + trail) == t
  {
    if trail == [] {
      assert t + trail == t;
    } else {
      var n := |t + trail|;
      assert (t + trail)[..n - 1] == t + trail[..|trail| - 1];
      TrimRightPast(t, trail[..|trail| - 1]);
    }
  }

  /**
   * `strip()` is characterised independently of how it is computed: whatever
   * whitespace surrounds a stripped string, stripping gives that string back.
   */
  lemma StripOf(lead: string, core: string, trail: string)
    requires AllSpace(lead) && AllSpace(trail) && IsStripped(core)
    ensures Strip(lead + core + trail) == core
  {
    if core == [] {
      assert lead + core + trail == lead + trail;
      TrimLeftPast(lead + trail, []);
      assert lead + trail + [] == lead + trail;
    } else {
      assert lead + core + trail == lead + (core + trail);
      TrimLeftPast(lead, core + trail);
      TrimRightPast(core, trail);
    }
  }

  /** A string is a fixed point of `strip()` exactly when it has no surrounding whitespace. */
  lemma StripFixedIff(s: string)
    ensures Strip(s) == s <==> IsStripped(s)
  {
    if IsStripped(s) {
      StripOf([], s, []);
      assert [] + s + [] == s;
    }
  }

  lemma StripIdempotent(s: string)
    ensures Strip(Strip(s)) == Strip(s)
  {
    StripFixedIff(Strip(s));
  }

  /** `strip()` empties a string exactly when the string is all whitespace. */
  lemma StripEmptyIff(s: string)
    ensures Strip(s) == [] <==> AllSpace(s)
  {
    if AllSpace(s) {
      TrimLeftPast(s, []);
      assert s + [] == s;
    } else {
      var t := TrimLeft(s);
      var k := |s| - |t|;
      assert s == s[..k] + t;
      if t == [] {
        assert false;
      }
    }
  }

  lemma StrippedOfNonSpace(s: string, k: nat)
    requires k < |s| && !IsSpace(s[k])
    ensures Strip(s) != []
  {
    StripEmptyIff(s);
  }

  /** When a string does not start with whitespace, `strip()` only drops whitespace from its end. */
  lemma StripKeepsStart(s: string)
    requires s != [] && !IsSpace(s[0])
    ensures Strip(s) == s[..|Strip(s)|]
    ensures AllSpace(s[|Strip(s)|..])
  {
    TrimLeftPast([], s);
    assert [] + s == s;
  }

  lemma ConcatStripped(a: string, b: string)
    requires IsStripped(a) && IsStripped(b)
    ensures IsStripped(a + b)
  {
    if a != [] && b != [] {
      assert (a + b)[0] == a[0];
      assert (a + b)[|a + b| - 1] == b[|b| - 1];
    } else if a == [] {
      assert a + b == b;
    } else {
      assert a + b == a;
    }
  }

  /** Python truthiness of an optional string: neither `None` nor `""`. */
  predicate Truthy(v: Option<string>) {
    v.Some? && v.value != ""
  }

  /**
   * BeautifulSoup's `Tag.get_text(strip=True)` over the element's text nodes
   * in document order: every node is stripped, blank nodes are skipped and the
   * rest are joined with the empty separator. A blank node strips to `""`, so
   * skipping it and appending its stripped form are the same.
   */
  function GetText(strings: seq<string>): (r: string)
    ensures IsStripped(r)
  {
    if strings == [] then []
    else
      var front := GetText(strings[..|strings| - 1]);
      var last := Strip(strings[|strings| - 1]);
      ConcatStripped(front, last);
      front + last
  }

  /** Every text node is blank. */
  predicate AllBlank(strings: seq<string>) {
    forall k :: 0 <= k < |strings| ==> AllSpace(strings[k])
  }

  lemma AllBlankSnoc(strings: seq<string>)
    requires strings != []
    ensures AllBlank(strings) <==> AllBlank(strings[..|strings| - 1]) && AllSpace(strings[|strings| - 1])
  {
    var n := |strings|;
    assert forall k :: 0 <= k < n - 1 ==> strings[..n - 1][k] == strings[k];
  }

  /** `get_text(strip=True)` is empty exactly when every text node is blank. */
  lemma {:induction false} GetTextEmptyIff(strings: seq<string>)
    ensures GetText(strings) == [] <==> AllBlank(strings)
  {
    if strings != [] {
      var n := |strings|;
      var front, last := strings[..n - 1], strings[n - 1];
      GetTextEmptyIff(front);
      StripEmptyIff(last);
      AllBlankSnoc(strings);
      assert |GetText(strings)| == |GetText(front)| + |Strip(last)|;
    }
  }

  /** Python's `p in s` on strings. */
  predicate Contains(s: string, p: string) {
    exists i :: 0 <= i <= |s| - |p| && OccursAt(s, p, i)
  }

  predicate OccursAt(s: string, p: string, i: int) {
    0 <= i <= |s| - |p| && s[i..i + |p|] == p
  }

  lemma ContainsInfix(a: string, p: string, b: string)
    ensures Contains(a + p + b, p)
  {
    var s := a + p + b;
    assert OccursAt(s, p, |a|);
  }

  lemma ContainsPrefix(p: string, b: string)
    ensures Contains(p + b, p)
  {
    ContainsInfix([], p, b);
    assert [] + p + b == p + b;
  }

  function Min(a: nat, b: nat): nat {
    if a <= b then a else b
  }

  /** Python's `s[:n]` for `n >= 0`. */
  function Take<T>(s: seq<T>, n: nat): (r: seq<T>)
    ensures |r| == Min(|s|, n) && r == s[..|r|]
  {
    if |s| <= n then s else s[..n]
  }

  /** Building a string by `+=` appends to the right; this regroups four pieces. */
  lemma Regroup(a: string, b: string, c: string, d: string)
    ensures a + b + c + d == a + (b + c + d)
  {
  }

  /**
   * The lines of newline-terminated text: `str.splitlines()` on text whose
   * only line break is `"\n"` (unlike `split("\n")`, no empty last piece).
   */
  function SplitLines(s: string): seq<string>
    decreases |s|
  {
    if s == [] then []
    else
      var i := LineEnd(s);
      if i == |s| then [s] else [s[..i]] + SplitLines(s[i + 1..])
  }

  /** The index of the first newline, or the length when there is none. */
  function LineEnd(s: string): (i: nat)
    ensures i <= |s| && (i < |s| ==> s[i] == '\n')
    ensures forall k :: 0 <= k < i ==> s[k] != '\n'
  {
    if s == [] || s[0] == '\n' then 0 else 1 + LineEnd(s[1..])
  }

  /** Newline-terminated lines concatenated. */
  function JoinLines(lines: seq<string>): string {
    if lines == [] then "" else lines[0] + "\n" + JoinLines(lines[1..])
  }

  lemma {:induction false} JoinLinesAppend(a: seq<string>, b: seq<string>)
    ensures JoinLines(a + b) == JoinLines(a) + JoinLines(b)
  {
    if a == [] {
      assert a + b == b;
    } else {
      assert (a + b)[1..] == a[1..] + b;
      JoinLinesAppend(a[1..], b);
    }
  }

  /**
   * Splitting undoes joining: text made of newline-terminated lines that
   * contain no newline themselves splits back into exactly those lines.
   */
  lemma {:induction false} SplitJoin(lines: seq<string>)
    requires forall k :: 0 <= k < |lines| ==> '\n' !in lines[k]
    ensures SplitLines(JoinLines(lines)) == lines
  {
    if lines != [] {
      var l := lines[0];
      var s := JoinLines(lines);
      assert s == l + ("\n" + JoinLines(lines[1..]));
      var i := LineEnd(s);
      assert s[|l|] == '\n';
      assert forall k :: 0 <= k < |l| ==> s[k] == l[k];
      assert i == |l|;
      assert s[..i] == l;
      assert s[i + 1..] == JoinLines(lines[1..]);
      SplitJoin(lines[1..]);
    }
  }

}
