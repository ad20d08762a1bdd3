/** Sorting by id, as the source does before it shows lists to anyone: a stable sort on
    strings compared character by character. */
module Ordering {

  predicate Less(a: string, b: string) {
    b != "" && (a == "" || a[0] < b[0] || (a[0] == b[0] && Less(a[1..], b[1..])))
  }

  lemma {:induction false} LessIsTotal(a: string, b: string)
    ensures a != b <==> Less(a, b) || Less(b, a)
    ensures !(Less(a, b) && Less(b, a))
    decreases |a|
  {
    if a != "" && b != "" && a[0] == b[0] {
      assert a == [a[0]] + a[1..] && b == [b[0]] + b[1..];
      LessIsTotal(a[1..], b[1..]);
    }
  }

  lemma {:induction false} LessIsTransitive(a: string, b: string, c: string)
    requires Less(a, b) && Less(b, c)
    ensures Less(a, c)
    decreases |a|
  {
    if a != "" && a[0] == b[0] == c[0] {
      LessIsTransitive(a[1..], b[1..], c[1..]);
    }
  }

  function Insert<T>(sorted: seq<T>, x: T, key: T -> string): (r: seq<T>)
    ensures multiset(r) == multiset(sorted) + multiset{x}
    ensures |r| == |sorted| + 1
  {
    if sorted == [] || !Less(key(x), key(sorted[|sorted| - 1])) then sorted + [x]
    else
      var front, last := sorted[..|sorted| - 1], sorted[|sorted| - 1];
      assert sorted == front + [last];
      Insert(front, x, key) + [last]
  }

  /** Python's sorted(items, key=...): stable, ties keep their order. */
  function SortBy<T>(items: seq<T>, key: T -> string): (r: seq<T>)
    ensures multiset(r) == multiset(items) && |r| == |items|
  {
    if items == [] then []
    else
      assert items == items[..|items| - 1] + [items[|items| - 1]];
      Insert(SortBy(items[..|items| - 1], key), items[|items| - 1], key)
  }

  ghost predicate Ascending<T>(items: seq<T>, key: T -> string) {
    forall i, j :: 0 <= i < j < |items| ==> !Less(key(items[j]), key(items[i]))
  }

  lemma {:induction false} InsertKeepsOrder<T>(sorted: seq<T>, x: T, key: T -> string)
    requires Ascending(sorted, key)
    ensures Ascending(Insert(sorted, x, key), key)
  {
    if sorted != [] {
      var front, last := sorted[..|sorted| - 1], sorted[|sorted| - 1];
      if Less(key(x), key(last)) {
        InsertKeepsOrder(front, x, key);
        var r := Insert(front, x, key);
        LessIsTotal(key(x), key(last));
        forall y | y in r ensures !Less(key(last), key(y)) {
          assert y in multiset(r);
          if y != x {
            assert y in multiset(front);
            var i :| 0 <= i < |front| && front[i] == y;
          }
        }
      } else {
        forall i | 0 <= i < |sorted| ensures !Less(key(x), key(sorted[i])) {
          if i < |sorted| - 1 && Less(key(x), key(sorted[i])) {
            LessIsTotal(key(sorted[i]), key(last));
            if key(sorted[i]) != key(last) {
              LessIsTransitive(key(x), key(sorted[i]), key(last));
            }
          }
        }
      }
    }
  }

  lemma {:induction false} SortByAscends<T>(items: seq<T>, key: T -> string)
    ensures Ascending(SortBy(items, key), key)
  {
    if items != [] {
      SortByAscends(items[..|items| - 1], key);
      InsertKeepsOrder(SortBy(items[..|items| - 1], key), items[|items| - 1], key);
    }
  }

  lemma SameElements<T>(items: seq<T>, key: T -> string)
    ensures forall x :: x in SortBy(items, key) <==> x in items
  {
    forall x ensures x in SortBy(items, key) <==> x in items {
      assert x in multiset(items) <==> x in items;
      assert x in multiset(SortBy(items, key)) <==> x in SortBy(items, key);
    }
  }

  /** Each key once, in order: how the store lists the rows of a table. */
  ghost predicate StrictlyAscending<T>(items: seq<T>, key: T -> string) {
    forall i, j :: 0 <= i < j < |items| ==> Less(key(items[i]), key(items[j]))
  }

  /** Such a listing is determined by what it lists. */
  lemma {:induction false} ListingIsUnique<T>(xs: seq<T>, ys: seq<T>, key: T -> string)
    requires StrictlyAscending(xs, key) && StrictlyAscending(ys, key) && forall x :: x in xs <==> x in ys
    ensures xs == ys
  {
    if xs == [] {
      if ys != [] {
        HasMember(ys);
      }
    } else {
      var front, last := xs[..|xs| - 1], xs[|xs| - 1];
      assert last in ys;
      var front', last' := ys[..|ys| - 1], ys[|ys| - 1];
      assert xs == front + [last] && ys == front' + [last'];
      SameLast(xs, ys, key);
      forall x ensures x in front <==> x in front' {
        LastIsApart(xs, x, key);
        LastIsApart(ys, x, key);
      }
      ListingIsUnique(front, front', key);
    }
  }

  lemma HasMember<T>(xs: seq<T>)
    requires xs != []
    ensures exists x :: x in xs
  {
    assert xs[0] in xs;
  }

  lemma SameLast<T>(xs: seq<T>, ys: seq<T>, key: T -> string)
    requires StrictlyAscending(xs, key) && StrictlyAscending(ys, key) && xs != [] && ys != []
    requires xs[|xs| - 1] in ys && ys[|ys| - 1] in xs
    ensures xs[|xs| - 1] == ys[|ys| - 1]
  {
    var i :| 0 <= i < |xs| && xs[i] == ys[|ys| - 1];
    var j :| 0 <= j < |ys| && ys[j] == xs[|xs| - 1];
    LessIsTotal(key(xs[|xs| - 1]), key(ys[|ys| - 1]));
  }

  lemma LastIsApart<T>(xs: seq<T>, x: T, key: T -> string)
    requires StrictlyAscending(xs, key) && xs != []
    ensures x in xs[..|xs| - 1] <==> x in xs && x != xs[|xs| - 1]
  {
    var last := xs[|xs| - 1];
    assert xs == xs[..|xs| - 1] + [last];
    if x in xs[..|xs| - 1] {
      var i :| 0 <= i < |xs| - 1 && xs[i] == x;
      LessIsTotal(key(x), key(last));
    }
  }
}
