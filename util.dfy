/** Small value-level helpers shared by the game model: an optional value,
    JavaScript's `Array.prototype.splice(i, 1)` and `Array.prototype.filter`. */
module Util {

  /** Stands in for JavaScript's `null`/`undefined` before a value is assigned. */
  datatype Option<T> = None | Some(value: T)

  /** No element occurs twice: every object in a game list is its own `new` object. */
  ghost predicate Distinct<T>(s: seq<T>) {
    forall i, j :: 0 <= i < j < |s| ==> s[i] != s[j]
  }

  /** `s.splice(i, 1)`: removes the element at index `i`; an index at or past
      the end removes nothing. */
  function Splice<T>(s: seq<T>, i: nat): (r: seq<T>)
    ensures i >= |s| ==> r == s
    ensures i < |s| ==> |r| == |s| - 1
    ensures i < |s| ==> forall j :: 0 <= j < i ==> r[j] == s[j]
    ensures i < |s| ==> forall j :: i <= j < |r| ==> r[j] == s[j + 1]
  {
    if i < |s| then s[..i] + s[i + 1..] else s
  }

  /** What `splice` leaves is what was there, less the removed element. */
  lemma SpliceMultiset<T>(s: seq<T>, i: nat)
    ensures multiset(Splice(s, i)) <= multiset(s)
    ensures i < |s| ==> multiset(Splice(s, i)) + multiset{s[i]} == multiset(s)
  {
    if i < |s| {
      assert s == s[..i] + [s[i]] + s[i + 1..];
    }
  }

  lemma SpliceKeepsDistinct<T>(s: seq<T>, i: nat)
    requires Distinct(s)
    ensures Distinct(Splice(s, i))
  {
    var r := Splice(s, i);
    if i < |s| {
      forall a, b | 0 <= a < b < |r| ensures r[a] != r[b] {
        var a' := if a < i then a else a + 1;
        var b' := if b < i then b else b + 1;
        assert r[a] == s[a'] && r[b] == s[b'] && a' < b';
      }
    }
  }

  /** `s.filter(keep)`, written from the back so that it follows a loop that
      pushes the kept elements in order. */
  function Filter<T>(s: seq<T>, keep: T -> bool): seq<T>
  {
    if s == [] then []
    else
      var init := Filter(s[..|s| - 1], keep);
      if keep(s[|s| - 1]) then init + [s[|s| - 1]] else init
  }

  lemma FilterSnoc<T>(s: seq<T>, x: T, keep: T -> bool)
    ensures Filter(s + [x], keep) == Filter(s, keep) + (if keep(x) then [x] else [])
  {
    assert (s + [x])[..|s + [x]| - 1] == s;
  }

  /** Filtering distributes over concatenation: survivors keep their order. */
  lemma {:induction false} FilterAppend<T>(a: seq<T>, b: seq<T>, keep: T -> bool)
    ensures Filter(a + b, keep) == Filter(a, keep) + Filter(b, keep)
    decreases |b|
  {
    if b == [] {
      assert a + b == a;
    } else {
      var b', x := b[..|b| - 1], b[|b| - 1];
      assert b == b' + [x];
      assert a + b == (a + b') + [x];
      FilterAppend(a, b', keep);
      FilterSnoc(a + b', x, keep);
      FilterSnoc(b', x, keep);
    }
  }

  /** Exactly the elements accepted by `keep` survive. */
  lemma {:induction false} FilterMembers<T>(s: seq<T>, keep: T -> bool)
    ensures forall x :: x in Filter(s, keep) <==> x in s && keep(x)
    ensures |Filter(s, keep)| <= |s|
  {
    if s != [] {
      var s', x := s[..|s| - 1], s[|s| - 1];
      assert s == s' + [x];
      FilterMembers(s', keep);
      FilterSnoc(s', x, keep);
    }
  }
}
