/** Splitting and joining strings at a separator. */
module Text {
  import opened Wrappers

  predicate Free(s: string, c: char) {
    forall d <- s :: d != c
  }

  /** Where the head is free of the separator, both halves can be told. */
  lemma SplitIsUnique(a: string, b: string, x: string, y: string, separator: char)
    requires Free(a, separator) && Free(x, separator) && a + [separator] + b == x + [separator] + y
    ensures a == x && b == y
  {
    var whole := a + [separator] + b;
    assert whole == a + ([separator] + b) && whole == x + ([separator] + y);
    assert forall i | 0 <= i < |a| :: whole[i] == a[i] && a[i] in a;
    assert forall i | 0 <= i < |x| :: whole[i] == x[i] && x[i] in x;
    assert whole[|a|] == separator && whole[|x|] == separator;
    assert |a| == |x|;
    assert whole[..|a|] == a && whole[..|x|] == x;
    assert whole[|a| + 1..] == b && whole[|x| + 1..] == y;
  }

  /** What is before the first `c`, and what is after it. */
  function CutAt(s: string, c: char): (r: Option<(string, string)>)
    ensures r.Some? ==> |r.value.1| < |s|
  {
    if s == "" then None
    else if s[0] == c then Some(("", s[1..]))
    else
      var rest := CutAt(s[1..], c);
      if rest.None? then None else Some(([s[0]] + rest.value.0, rest.value.1))
  }

  lemma {:induction false} CutIsExact(s: string, c: char)
    ensures CutAt(s, c).None? <==> Free(s, c)
    ensures CutAt(s, c).Some? ==> s == CutAt(s, c).value.0 + [c] + CutAt(s, c).value.1 && Free(CutAt(s, c).value.0, c)
  {
    if s != "" {
      var rest := s[1..];
      assert s == [s[0]] + rest && s[0] in s && forall d <- rest :: d in s;
      assert forall d <- s :: d == s[0] || d in rest;
      CutIsExact(rest, c);
      if s[0] == c {
        assert s == "" + [c] + rest;
      } else if CutAt(rest, c).Some? {
        var cut := CutAt(rest, c).value;
        assert c in rest;
        assert s == ([s[0]] + cut.0) + [c] + cut.1;
      }
    }
  }

  lemma CutsAtFirst(a: string, b: string, c: char)
    requires Free(a, c)
    ensures CutAt(a + [c] + b, c) == Some((a, b))
  {
    var s := a + [c] + b;
    assert s[|a|] == c && c in s;
    CutIsExact(s, c);
    var cut := CutAt(s, c).value;
    SplitIsUnique(a, b, cut.0, cut.1, c);
  }

  function Split(s: string, c: char): seq<string>
    decreases |s|
  {
    var cut := CutAt(s, c);
    if cut.None? then [s] else [cut.value.0] + Split(cut.value.1, c)
  }

  function Join(parts: seq<string>, c: char): string {
    if parts == [] then ""
    else if |parts| == 1 then parts[0]
    else parts[0] + [c] + Join(parts[1..], c)
  }

  lemma {:induction false} SplitJoin(parts: seq<string>, c: char)
    requires parts != [] && forall p <- parts :: Free(p, c)
    ensures Split(Join(parts, c), c) == parts
  {
    if |parts| == 1 {
      CutIsExact(parts[0], c);
    } else {
      CutsAtFirst(parts[0], Join(parts[1..], c), c);
      SplitJoin(parts[1..], c);
    }
  }

  lemma {:induction false} SplitIsFree(s: string, c: char, p: string)
    requires p in Split(s, c)
    ensures Free(p, c) && forall d <- p :: d in s
    decreases |s|
  {
    var cut := CutAt(s, c);
    CutIsExact(s, c);
    if cut.Some? {
      var (head, tail) := cut.value;
      assert s == head + [c] + tail && Split(s, c) == [head] + Split(tail, c);
      assert forall d <- tail :: d in s;
      assert forall d <- head :: d in s;
      if p != head {
        SplitIsFree(tail, c, p);
      }
    } else {
      assert Split(s, c) == [s] && p == s;
    }
  }
}
