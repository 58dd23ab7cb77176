/** Python's string comparison, and the sorted list of a set of strings. */
module Text {

  predicate Less(a: string, b: string) {
    if b == "" then false
    else if a == "" then true
    else a[0] < b[0] || (a[0] == b[0] && Less(a[1..], b[1..]))
  }

  lemma {:induction false} LessIsTotal(a: string, b: string)
    ensures Less(a, b) || a == b || Less(b, a)
    ensures !(Less(a, b) && Less(b, a)) && !Less(a, a)
    decreases |a|
  {
    if a != "" {
      LessIsTotal(a[1..], a[1..]);
      if b != "" {
        LessIsTotal(a[1..], b[1..]);
        assert a == [a[0]] + a[1..] && b == [b[0]] + b[1..];
      }
    }
  }

  lemma {:induction false} LessIsTransitive(a: string, b: string, c: string)
    requires Less(a, b) && Less(b, c)
    ensures Less(a, c)
    decreases |a|
  {
    if a != "" && a[0] == b[0] == c[0] { LessIsTransitive(a[1..], b[1..], c[1..]); }
  }

  ghost predicate Ascending(xs: seq<string>) {
    forall i, j :: 0 <= i < j < |xs| ==> Less(xs[i], xs[j])
  }

  ghost predicate IsLeast(s: set<string>, m: string) {
    m in s && forall x :: x in s && x != m ==> Less(m, x)
  }

  lemma {:induction false} LeastExists(s: set<string>) returns (m: string)
    requires s != {}
    ensures IsLeast(s, m)
    decreases |s|
  {
    var x :| x in s;
    var rest := s - {x};
    if rest == {} {
      m := x;
      assert s == {x};
    } else {
      var n := LeastExists(rest);
      LessIsTotal(x, n);
      m := if Less(x, n) then x else n;
      forall y | y in s && y != m ensures Less(m, y) {
        if y != x && y != n && Less(x, n) { LessIsTransitive(x, n, y); }
      }
    }
  }

  function Elems(xs: seq<string>): set<string> {
    set x | x in xs
  }

  lemma EmptyElems(xs: seq<string>)
    ensures Elems(xs) == {} <==> xs == []
  {
    if xs != [] { assert xs[0] in Elems(xs); }
  }

  lemma ElemsConcat(a: seq<string>, b: seq<string>)
    ensures Elems(a + b) == Elems(a) + Elems(b)
  {}

  lemma {:induction false} AscendingExists(s: set<string>) returns (xs: seq<string>)
    ensures Elems(xs) == s && Ascending(xs)
    decreases |s|
  {
    if s == {} {
      xs := [];
    } else {
      var m := LeastExists(s);
      var rest := AscendingExists(s - {m});
      LeastFirst(s, m, rest);
      xs := [m] + rest;
    }
  }

  lemma LeastFirst(s: set<string>, m: string, rest: seq<string>)
    requires IsLeast(s, m) && Elems(rest) == s - {m} && Ascending(rest)
    ensures Elems([m] + rest) == s && Ascending([m] + rest)
  {
    ElemsConcat([m], rest);
    forall j | 0 <= j < |rest| ensures Less(m, rest[j]) {
      assert rest[j] in Elems(rest);
    }
  }

  lemma SortedExists(s: set<string>)
    ensures exists xs :: Elems(xs) == s && Ascending(xs)
  {
    var xs := AscendingExists(s);
  }

  /** `sorted` of a set. */
  ghost function Sorted(s: set<string>): seq<string> {
    SortedExists(s);
    var xs :| Elems(xs) == s && Ascending(xs);
    xs
  }

  lemma SortedEmpty()
    ensures Sorted({}) == []
  {
    EmptyElems(Sorted({}));
  }

  /** There is only one ascending list of the elements of a set. */
  lemma {:induction false} AscendingIsUnique(xs: seq<string>, ys: seq<string>)
    requires Elems(xs) == Elems(ys) && Ascending(xs) && Ascending(ys)
    ensures xs == ys
    decreases |xs|
  {
    if xs == [] || ys == [] {
      EmptyElems(xs);
      EmptyElems(ys);
    } else {
      assert xs[0] in Elems(ys) && ys[0] in Elems(xs);
      LessIsTotal(xs[0], ys[0]);
      TailElems(xs);
      TailElems(ys);
      AscendingIsUnique(xs[1..], ys[1..]);
    }
  }

  lemma TailElems(xs: seq<string>)
    requires xs != [] && Ascending(xs)
    ensures Elems(xs[1..]) == Elems(xs) - {xs[0]} && Ascending(xs[1..])
  {
    ElemsConcat([xs[0]], xs[1..]);
    assert xs == [xs[0]] + xs[1..];
    LessIsTotal(xs[0], xs[0]);
    assert forall j :: 0 <= j < |xs[1..]| ==> xs[1..][j] != xs[0];
  }

  /** `list.sort` on the distinct strings of a set, by selection. */
  method Sort(s: set<string>) returns (xs: seq<string>)
    ensures xs == Sorted(s)
    decreases |s|
  {
    if s == {} {
      xs := [];
      SortedEmpty();
    } else {
      ghost var least := LeastExists(s);
      var m :| m in s && forall x :: x in s && x != m ==> Less(m, x);
      var rest := Sort(s - {m});
      xs := [m] + rest;
      LeastFirst(s, m, rest);
      AscendingIsUnique(xs, Sorted(s));
    }
  }
}
