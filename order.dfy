/** Python's ordering of `str` values (code point by code point, a prefix first)
    and the sorted listings of a directory's names built on it. */
module Order {

  /** `a <= b` for Python strings. */
  predicate LexLe(a: string, b: string)
    decreases |a|
  {
    a == [] || (b != [] && (a[0] < b[0] || (a[0] == b[0] && LexLe(a[1..], b[1..]))))
  }

  /** `a < b` for Python strings. */
  predicate LexLt(a: string, b: string) {
    LexLe(a, b) && a != b
  }

  lemma {:induction false} LexLeRefl(a: string)
    ensures LexLe(a, a)
    decreases |a|
  {
    if a != [] { LexLeRefl(a[1..]); }
  }

  lemma {:induction false} LexLeTotal(a: string, b: string)
    ensures LexLe(a, b) || LexLe(b, a)
    decreases |a|
  {
    if a != [] && b != [] && a[0] == b[0] { LexLeTotal(a[1..], b[1..]); }
  }

  lemma {:induction false} LexLeAntisym(a: string, b: string)
    requires LexLe(a, b) && LexLe(b, a)
    ensures a == b
    decreases |a|
  {
    if a != [] {
      LexLeAntisym(a[1..], b[1..]);
      assert a == [a[0]] + a[1..] && b == [b[0]] + b[1..];
    }
  }

  lemma {:induction false} LexLeTrans(a: string, b: string, c: string)
    requires LexLe(a, b) && LexLe(b, c)
    ensures LexLe(a, c)
    decreases |a|
  {
    if a != [] && a[0] == b[0] && b[0] == c[0] { LexLeTrans(a[1..], b[1..], c[1..]); }
  }

  lemma LexLeAntisymAll()
    ensures forall a, b :: LexLe(a, b) && LexLe(b, a) ==> a == b
  {
    forall a, b | LexLe(a, b) && LexLe(b, a) ensures a == b { LexLeAntisym(a, b); }
  }

  /** Every non-empty finite set of names has a greatest one. */
  lemma {:induction false} MaxExists(s: set<string>)
    requires s != {}
    ensures exists m :: m in s && forall x :: x in s ==> LexLe(x, m)
    decreases |s|
  {
    var y :| y in s;
    var w := y;
    if s == {y} {
      LexLeRefl(y);
    } else {
      var rest := s - {y};
      MaxExists(rest);
      var m :| m in rest && forall x :: x in rest ==> LexLe(x, m);
      LexLeTotal(y, m);
      if LexLe(y, m) {
        w := m;
      } else {
        forall x | x in rest ensures LexLe(x, y) { LexLeTrans(x, m, y); }
        LexLeRefl(y);
      }
    }
    assert w in s && forall x :: x in s ==> LexLe(x, w);
  }

  /** The greatest name of a non-empty set. */
  function MaxOf(s: set<string>): (m: string)
    requires s != {}
    ensures m in s && forall x :: x in s ==> LexLe(x, m)
  {
    MaxExists(s);
    LexLeAntisymAll();
    var m :| m in s && forall x :: x in s ==> LexLe(x, m);
    m
  }

  /** Strictly increasing in Python's string order. */
  predicate StrictlyAscending(r: seq<string>) {
    forall i, j :: 0 <= i < j < |r| ==> LexLt(r[i], r[j])
  }

  /** Strictly decreasing in Python's string order. */
  predicate StrictlyDescending(r: seq<string>) {
    forall i, j :: 0 <= i < j < |r| ==> LexLt(r[j], r[i])
  }

  /** `sorted(names)`. */
  function Ascending(s: set<string>): (r: seq<string>)
    ensures |r| == |s|
    decreases |s|
  {
    if s == {} then [] else Ascending(s - {MaxOf(s)}) + [MaxOf(s)]
  }

  /** `sorted(names, reverse=True)`. */
  function Descending(s: set<string>): (r: seq<string>)
    ensures |r| == |s|
    decreases |s|
  {
    if s == {} then [] else [MaxOf(s)] + Descending(s - {MaxOf(s)})
  }

  /** Sorting a set of names lists every one of them and nothing else. */
  lemma {:induction false} AscendingMembers(s: set<string>)
    ensures forall x :: x in Ascending(s) <==> x in s
    decreases |s|
  {
    if s != {} { AscendingMembers(s - {MaxOf(s)}); }
  }

  lemma {:induction false} DescendingMembers(s: set<string>)
    ensures forall x :: x in Descending(s) <==> x in s
    decreases |s|
  {
    if s != {} { DescendingMembers(s - {MaxOf(s)}); }
  }

  lemma {:induction false} AscendingSorted(s: set<string>)
    ensures StrictlyAscending(Ascending(s))
    decreases |s|
  {
    if s != {} {
      var m := MaxOf(s);
      var rest := Ascending(s - {m});
      AscendingSorted(s - {m});
      AscendingMembers(s - {m});
      forall i | 0 <= i < |rest| ensures LexLt(rest[i], m) {
        assert rest[i] in rest;
      }
      var r := rest + [m];
      forall i, j | 0 <= i < j < |r| ensures LexLt(r[i], r[j]) {
        if j < |rest| { assert r[i] == rest[i] && r[j] == rest[j]; }
      }
    }
  }

  lemma {:induction false} DescendingSorted(s: set<string>)
    ensures StrictlyDescending(Descending(s))
    decreases |s|
  {
    if s != {} {
      var m := MaxOf(s);
      var rest := Descending(s - {m});
      DescendingSorted(s - {m});
      DescendingMembers(s - {m});
      forall i | 0 <= i < |rest| ensures LexLt(rest[i], m) {
        assert rest[i] in rest;
      }
      var r := [m] + rest;
      forall i, j | 0 <= i < j < |r| ensures LexLt(r[j], r[i]) {
        if i > 0 { assert r[i] == rest[i - 1] && r[j] == rest[j - 1]; }
      }
    }
  }

  function Reverse<T>(s: seq<T>): (r: seq<T>)
    ensures |r| == |s| && forall i :: 0 <= i < |s| ==> r[i] == s[|s| - 1 - i]
  {
    if s == [] then [] else Reverse(s[1..]) + [s[0]]
  }

  /** The newest-first listing is the oldest-first listing read backwards. */
  lemma {:induction false} DescendingIsReversedAscending(s: set<string>)
    ensures Descending(s) == Reverse(Ascending(s))
    decreases |s|
  {
    if s != {} {
      var m := MaxOf(s);
      DescendingIsReversedAscending(s - {m});
      var a := Ascending(s - {m});
      assert Reverse(a + [m]) == [m] + Reverse(a);
    }
  }
}
