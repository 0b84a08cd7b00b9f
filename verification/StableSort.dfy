/** The stable sort by an integer key that the code calls as a library routine. */
module StableSort {

  datatype Option<T> = None | Some(value: T)

  function Insert<T>(x: T, s: seq<T>, key: T -> int): seq<T> {
    if s == [] || key(x) <= key(s[0]) then [x] + s else [s[0]] + Insert(x, s[1..], key)
  }

  function Sort<T>(s: seq<T>, key: T -> int): seq<T> {
    if s == [] then [] else Insert(s[0], Sort(s[1..], key), key)
  }

  ghost predicate Ascending<T>(s: seq<T>, key: T -> int) {
    forall i, j :: 0 <= i <= j < |s| ==> key(s[i]) <= key(s[j])
  }

  lemma {:induction false} InsertAdds<T>(x: T, s: seq<T>, key: T -> int)
    ensures multiset(Insert(x, s, key)) == multiset(s) + multiset{x}
  {
    if s != [] && key(x) > key(s[0]) {
      InsertAdds(x, s[1..], key);
      assert s == [s[0]] + s[1..];
    }
  }

  lemma ConsKeepsOrder<T>(h: T, r: seq<T>, key: T -> int)
    requires Ascending(r, key) && forall i :: 0 <= i < |r| ==> key(h) <= key(r[i])
    ensures Ascending([h] + r, key)
  {
  }

  lemma {:induction false} InsertKeepsOrder<T>(x: T, s: seq<T>, key: T -> int)
    requires Ascending(s, key)
    ensures Ascending(Insert(x, s, key), key)
  {
    if s == [] || key(x) <= key(s[0]) {
      assert forall i :: 0 <= i < |s| ==> key(s[0]) <= key(s[i]);
      ConsKeepsOrder(x, s, key);
    } else {
      var r := Insert(x, s[1..], key);
      InsertKeepsOrder(x, s[1..], key);
      InsertAdds(x, s[1..], key);
      forall i | 0 <= i < |r|
        ensures key(s[0]) <= key(r[i])
      {
        assert r[i] in multiset(r);
        assert r[i] == x || r[i] in s[1..];
      }
      ConsKeepsOrder(s[0], r, key);
    }
  }

  /** Sorting permutes and orders. */
  lemma {:induction false} SortOrders<T>(s: seq<T>, key: T -> int)
    ensures Ascending(Sort(s, key), key)
    ensures multiset(Sort(s, key)) == multiset(s)
  {
    if s != [] {
      SortOrders(s[1..], key);
      InsertKeepsOrder(s[0], Sort(s[1..], key), key);
      InsertAdds(s[0], Sort(s[1..], key), key);
      assert s == [s[0]] + s[1..];
    }
  }

  function First<T>(s: seq<T>, p: T -> bool): Option<T> {
    if s == [] then None else if p(s[0]) then Some(s[0]) else First(s[1..], p)
  }

  lemma {:induction false} FirstIsLater<T>(s: seq<T>, key: T -> int, p: T -> bool)
    requires Ascending(s, key) && s != [] && First(s, p).Some?
    ensures key(s[0]) <= key(First(s, p).value)
  {
    if !p(s[0]) {
      FirstIsLater(s[1..], key, p);
      assert key(s[0]) <= key(s[1]);
    }
  }

  lemma {:induction false} FirstOfInsert<T>(x: T, s: seq<T>, key: T -> int, p: T -> bool)
    requires Ascending(s, key)
    ensures First(Insert(x, s, key), p) ==
            if p(x) && (First(s, p) == None || key(x) <= key(First(s, p).value)) then Some(x) else First(s, p)
  {
    if s == [] {
    } else if key(x) <= key(s[0]) {
      if First(s, p).Some? {
        FirstIsLater(s, key, p);
      }
      assert ([x] + s)[1..] == s;
    } else {
      FirstOfInsert(x, s[1..], key, p);
    }
  }

  /** Position `i` has the least key among the elements satisfying `p`, earliest among ties. */
  ghost predicate Best<T>(s: seq<T>, key: T -> int, p: T -> bool, i: int) {
    && 0 <= i < |s| && p(s[i])
    && forall j :: 0 <= j < |s| && p(s[j]) ==> key(s[i]) < key(s[j]) || (key(s[i]) == key(s[j]) && i <= j)
  }

  /** The first match of the sorted list is the best match of the list. */
  lemma {:induction false} FirstOfSortIsBest<T>(s: seq<T>, key: T -> int, p: T -> bool)
    ensures First(Sort(s, key), p) == None <==> forall i :: 0 <= i < |s| ==> !p(s[i])
    ensures First(Sort(s, key), p).Some? ==> exists i :: Best(s, key, p, i) && First(Sort(s, key), p).value == s[i]
  {
    if s != [] {
      var rest := s[1..];
      FirstOfSortIsBest(rest, key, p);
      SortOrders(rest, key);
      FirstOfInsert(s[0], Sort(rest, key), key, p);
      var f, g := First(Sort(rest, key), p), First(Sort(s, key), p);
      assert forall j :: 0 < j < |s| ==> s[j] == rest[j - 1];
      if f.Some? {
        var i :| Best(rest, key, p, i) && f.value == rest[i];
        assert p(s[i + 1]);
        if p(s[0]) && key(s[0]) <= key(f.value) {
          assert Best(s, key, p, 0);
        } else {
          assert Best(s, key, p, i + 1);
        }
      } else if p(s[0]) {
        assert Best(s, key, p, 0);
      }
    }
  }

  /** The list comprehension with a condition. */
  function Filter<T>(s: seq<T>, q: T -> bool): seq<T> {
    if s == [] then [] else if q(s[0]) then [s[0]] + Filter(s[1..], q) else Filter(s[1..], q)
  }

  lemma {:induction false} FilterIsLater<T>(x: T, s: seq<T>, key: T -> int, q: T -> bool)
    requires forall i :: 0 <= i < |s| ==> key(x) <= key(s[i])
    ensures Insert(x, Filter(s, q), key) == [x] + Filter(s, q)
  {
    if s != [] && !q(s[0]) {
      FilterIsLater(x, s[1..], key, q);
    }
  }

  lemma {:induction false} InsertCommutesWithFilter<T>(x: T, s: seq<T>, key: T -> int, q: T -> bool)
    requires Ascending(s, key)
    ensures Filter(Insert(x, s, key), q) == if q(x) then Insert(x, Filter(s, q), key) else Filter(s, q)
  {
    if s == [] {
    } else if key(x) <= key(s[0]) {
      assert ([x] + s)[1..] == s;
      assert forall i :: 0 <= i < |s| ==> key(s[0]) <= key(s[i]);
      FilterIsLater(x, s, key, q);
    } else {
      var t := Insert(x, s[1..], key);
      assert ([s[0]] + t)[1..] == t;
      InsertCommutesWithFilter(x, s[1..], key, q);
      assert ([s[0]] + Filter(s[1..], q))[1..] == Filter(s[1..], q);
    }
  }

  /** Stable sorting commutes with filtering. */
  lemma {:induction false} SortCommutesWithFilter<T>(s: seq<T>, key: T -> int, q: T -> bool)
    ensures Filter(Sort(s, key), q) == Sort(Filter(s, q), key)
  {
    if s != [] {
      SortOrders(s[1..], key);
      SortCommutesWithFilter(s[1..], key, q);
      InsertCommutesWithFilter(s[0], Sort(s[1..], key), key, q);
      assert ([s[0]] + Filter(s[1..], q))[1..] == Filter(s[1..], q);
    }
  }

  /** Filtering away elements that do not match does not change the first match. */
  lemma {:induction false} FirstOfFilter<T>(s: seq<T>, q: T -> bool, p: T -> bool)
    requires forall i :: 0 <= i < |s| && p(s[i]) ==> q(s[i])
    ensures First(Filter(s, q), p) == First(s, p)
  {
    if s != [] {
      FirstOfFilter(s[1..], q, p);
      assert ([s[0]] + Filter(s[1..], q))[1..] == Filter(s[1..], q);
    }
  }

  lemma {:induction false} FilterKeeps<T>(s: seq<T>, q: T -> bool)
    ensures forall x :: x in multiset(Filter(s, q)) ==> q(x)
  {
    if s != [] {
      FilterKeeps(s[1..], q);
    }
  }
}
