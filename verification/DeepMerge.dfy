/** Deep merge of nested configurations (utils/domain_loader.py): tenant overrides are laid
    over a base configuration. The reference definition is by paths. */
module DeepMerge {

  /** A configuration value: a dictionary, or anything else. */
  datatype Json = Leaf(value: string) | Obj(fields: map<string, Json>)

  function Merged(base: Json, over: Json): (r: Json)
    requires base.Obj? && over.Obj?
    ensures r.Obj? && r.fields.Keys == base.fields.Keys + over.fields.Keys
    decreases over
  {
    Obj(map k | k in base.fields.Keys + over.fields.Keys :: MergedField(base, over, k))
  }

  function MergedField(base: Json, over: Json, k: string): Json
    requires base.Obj? && over.Obj? && k in base.fields.Keys + over.fields.Keys
    decreases over, 0
  {
    if k !in over.fields then base.fields[k]
    else if k in base.fields && base.fields[k].Obj? && over.fields[k].Obj? then Merged(base.fields[k], over.fields[k])
    else over.fields[k]
  }

  /** A member of a non-empty set. */
  ghost function SomeKey(s: set<string>): (k: string)
    requires s != {}
    ensures k in s
  {
    var k :| k in s;
    k
  }

  /** The copy of the base after all overrides but those in `left`. */
  ghost function Partial(base: Json, over: Json, left: set<string>): map<string, Json>
    requires base.Obj? && over.Obj? && left <= over.fields.Keys
  {
    map k | k in base.fields.Keys + (over.fields.Keys - left) ::
      if k in left then base.fields[k] else MergedField(base, over, k)
  }

  lemma PartialStep(base: Json, over: Json, left: set<string>, key: string)
    requires base.Obj? && over.Obj? && left <= over.fields.Keys && key in left
    ensures Partial(base, over, left)[key := MergedField(base, over, key)] == Partial(base, over, left - {key})
    ensures key in Partial(base, over, left) <==> key in base.fields
    ensures key in base.fields ==> Partial(base, over, left)[key] == base.fields[key]
  {
  }

  lemma PartialEnds(base: Json, over: Json)
    requires base.Obj? && over.Obj?
    ensures Partial(base, over, over.fields.Keys) == base.fields
    ensures Obj(Partial(base, over, {})) == Merged(base, over)
  {
    assert Partial(base, over, {}) == Merged(base, over).fields;
  }

  /** `_deep_merge`: a copy of the base, updated key by key; the order in which the overrides
      list their keys does not matter. */
  method Merge(base: Json, over: Json) returns (result: Json)
    requires base.Obj? && over.Obj?
    ensures result == Merged(base, over)
    decreases over
  {
    var fields := base.fields;
    var left := over.fields.Keys;
    PartialEnds(base, over);
    while left != {}
      invariant left <= over.fields.Keys && fields == Partial(base, over, left)
      decreases |left|
    {
      assert SomeKey(left) in left;
      var key :| key in left;
      PartialStep(base, over, left, key);
      var val := over.fields[key];
      if key in fields && fields[key].Obj? && val.Obj? {
        val := Merge(fields[key], val);
      }
      fields := fields[key := val];
      left := left - {key};
    }
    result := Obj(fields);
  }

  // ---------------------------------------------------------------------------
  // Paths
  // ---------------------------------------------------------------------------

  /** What a configuration holds at a path. */
  datatype Found = Absent | Value(value: string) | Branch

  function At(x: Json, path: seq<string>): Found {
    if path == [] then (if x.Leaf? then Value(x.value) else Branch)
    else if x.Obj? && path[0] in x.fields then At(x.fields[path[0]], path[1..])
    else Absent
  }

  /** The overrides put a plain value somewhere above the path, which hides what was there. */
  ghost predicate Hides(over: Json, path: seq<string>) {
    exists n :: 0 <= n < |path| && At(over, path[..n]).Value?
  }

  lemma HidesStep(over: Json, path: seq<string>)
    requires path != []
    ensures Hides(over, path) <==>
            over.Leaf? || (path[0] in over.fields && Hides(over.fields[path[0]], path[1..]))
  {
    if Hides(over, path) {
      var n :| 0 <= n < |path| && At(over, path[..n]).Value?;
      if n > 0 {
        assert path[..n][0] == path[0] && path[..n][1..] == path[1..][..n - 1];
      }
    }
    if over.Leaf? {
      assert path[..0] == [];
      assert At(over, path[..0]).Value?;
    } else if path[0] in over.fields && Hides(over.fields[path[0]], path[1..]) {
      var n :| 0 <= n < |path[1..]| && At(over.fields[path[0]], path[1..][..n]).Value?;
      assert path[..n + 1][0] == path[0] && path[..n + 1][1..] == path[1..][..n];
      assert At(over, path[..n + 1]).Value?;
    }
  }

  /** At every path the merge holds what the overrides hold where they decide, and what the
      base holds elsewhere. */
  lemma {:induction false} MergedByPaths(base: Json, over: Json, path: seq<string>)
    requires base.Obj? && over.Obj?
    ensures At(Merged(base, over), path) ==
            if At(over, path) != Absent then At(over, path) else if Hides(over, path) then Absent else At(base, path)
    decreases path
  {
    if path != [] {
      HidesStep(over, path);
      var k, rest := path[0], path[1..];
      if k in over.fields {
        if k in base.fields && base.fields[k].Obj? && over.fields[k].Obj? {
          MergedByPaths(base.fields[k], over.fields[k], rest);
        } else {
          HiddenBelowALeaf(over.fields[k], rest);
        }
      }
    }
  }

  lemma HiddenBelowALeaf(x: Json, path: seq<string>)
    ensures x.Leaf? && path != [] ==> Hides(x, path)
    ensures path == [] ==> At(x, path) != Absent && !Hides(x, path)
  {
    if path != [] {
      HidesStep(x, path);
    }
  }

  /** A configuration is determined by what it holds at its paths. */
  lemma {:induction false} PathsDetermine(x: Json, y: Json)
    requires forall path :: At(x, path) == At(y, path)
    ensures x == y
    decreases x
  {
    assert At(x, []) == At(y, []);
    if x.Obj? {
      forall k
        ensures k in x.fields <==> k in y.fields
      {
        var path := [k];
        assert path[1..] == [];
        assert At(x, path) == At(y, path);
        assert k in x.fields <==> At(x, path) != Absent;
        assert k in y.fields <==> At(y, path) != Absent;
      }
      forall k | k in x.fields
        ensures x.fields[k] == y.fields[k]
      {
        forall path
          ensures At(x.fields[k], path) == At(y.fields[k], path)
        {
          assert ([k] + path)[1..] == path;
          assert At(x, [k] + path) == At(y, [k] + path);
        }
        PathsDetermine(x.fields[k], y.fields[k]);
      }
      assert x.fields == y.fields;
    }
  }

  // ---------------------------------------------------------------------------
  // Laws
  // ---------------------------------------------------------------------------

  const EMPTY := Obj(map[])

  lemma {:induction false} EmptyHidesNothing(path: seq<string>)
    ensures !Hides(EMPTY, path) && (path != [] ==> At(EMPTY, path) == Absent)
  {
    if path != [] {
      HidesStep(EMPTY, path);
    }
  }

  /** The empty configuration is a two-sided identity. */
  lemma EmptyIsIdentity(x: Json)
    requires x.Obj?
    ensures Merged(x, EMPTY) == x && Merged(EMPTY, x) == x
  {
    forall path
      ensures At(Merged(x, EMPTY), path) == At(x, path)
      ensures At(Merged(EMPTY, x), path) == At(x, path)
    {
      MergedByPaths(x, EMPTY, path);
      MergedByPaths(EMPTY, x, path);
      EmptyHidesNothing(path);
    }
    PathsDetermine(Merged(x, EMPTY), x);
    PathsDetermine(Merged(EMPTY, x), x);
  }

  /** Merging the same overrides twice is merging them once. */
  lemma MergeIsIdempotent(base: Json, over: Json)
    requires base.Obj? && over.Obj?
    ensures Merged(Merged(base, over), over) == Merged(base, over)
  {
    forall path
      ensures At(Merged(Merged(base, over), over), path) == At(Merged(base, over), path)
    {
      MergedByPaths(base, over, path);
      MergedByPaths(Merged(base, over), over, path);
    }
    PathsDetermine(Merged(Merged(base, over), over), Merged(base, over));
  }

  /** Somewhere above the path the first layer puts a plain value and the second a dictionary. */
  ghost predicate Replaced(first: Json, second: Json, path: seq<string>) {
    exists n :: 0 <= n < |path| && At(first, path[..n]).Value? && At(second, path[..n]) == Branch
  }

  /** A path the three layers disagree on when grouped differently: the base holds something
      there, neither layer does, and above it the first layer puts a plain value that the
      second replaces by a dictionary. */
  ghost predicate Reopens(base: Json, first: Json, second: Json, path: seq<string>) {
    && At(base, path) != Absent && At(first, path) == Absent && At(second, path) == Absent
    && !Hides(second, path) && Replaced(first, second, path)
  }

  /** Where something is found, there are dictionaries above it. */
  lemma {:induction false} BranchesAbove(x: Json, path: seq<string>, n: nat)
    requires n < |path| && At(x, path) != Absent
    ensures At(x, path[..n]) == Branch
    decreases n
  {
    if n > 0 {
      BranchesAbove(x.fields[path[0]], path[1..], n - 1);
      assert path[..n][1..] == path[1..][..n - 1];
    }
  }

  /** A plain value stays hidden only under what the second layer does not decide. */
  lemma StillHidden(first: Json, second: Json, path: seq<string>, n: nat)
    requires first.Obj? && second.Obj? && n < |path|
    requires At(first, path[..n]).Value? && !Hides(second, path)
    ensures At(Merged(first, second), path[..n]).Value? || At(second, path[..n]) == Branch
  {
    MergedByPaths(first, second, path[..n]);
    assert !At(second, path[..n]).Value?;
    if Hides(second, path[..n]) {
      var m :| 0 <= m < n && At(second, path[..n][..m]).Value?;
      assert path[..n][..m] == path[..m];
    }
  }

  /** Below one dictionary of the second layer that replaces a plain value of the first,
      neither layer hides anything any more. */
  lemma ReplacedIsOpen(first: Json, second: Json, path: seq<string>, m: nat)
    requires first.Obj? && second.Obj? && m < |path|
    requires !Hides(second, path) && Replaced(first, second, path)
    ensures !At(Merged(first, second), path[..m]).Value?
  {
    var n :| 0 <= n < |path| && At(first, path[..n]).Value? && At(second, path[..n]) == Branch;
    MergedByPaths(first, second, path[..m]);
    assert !At(second, path[..m]).Value?;
    if At(first, path[..m]) != Absent {
      if n < m {
        assert path[..m][..n] == path[..n];
        BranchesAbove(first, path[..m], n);
      } else if m < n {
        assert path[..n][..m] == path[..m];
        BranchesAbove(second, path[..n], m);
      }
    }
  }

  /** What the merge hides, in terms of its two layers. */
  lemma OpenIff(first: Json, second: Json, path: seq<string>)
    requires first.Obj? && second.Obj? && Hides(first, path) && !Hides(second, path)
    ensures Hides(Merged(first, second), path) <==> !Replaced(first, second, path)
  {
    if Replaced(first, second, path) {
      forall m | 0 <= m < |path|
        ensures !At(Merged(first, second), path[..m]).Value?
      {
        ReplacedIsOpen(first, second, path, m);
      }
    } else {
      var n :| 0 <= n < |path| && At(first, path[..n]).Value?;
      StillHidden(first, second, path, n);
    }
  }

  lemma LayersByPaths(base: Json, first: Json, second: Json, path: seq<string>)
    requires base.Obj? && first.Obj? && second.Obj?
    ensures At(Merged(Merged(base, first), second), path) == At(Merged(base, Merged(first, second)), path) <==>
            !Reopens(base, first, second, path)
  {
    MergedByPaths(base, first, path);
    MergedByPaths(Merged(base, first), second, path);
    MergedByPaths(first, second, path);
    MergedByPaths(base, Merged(first, second), path);
    HidesOfMerged(first, second, path);
    if Hides(first, path) && !Hides(second, path) {
      OpenIff(first, second, path);
    }
    assert Replaced(first, second, path) ==> Hides(first, path);
  }

  /** The merge hides a path if its second layer does, and only if one of its layers does. */
  lemma HidesOfMerged(first: Json, second: Json, path: seq<string>)
    requires first.Obj? && second.Obj?
    ensures Hides(second, path) ==> Hides(Merged(first, second), path)
    ensures Hides(Merged(first, second), path) ==> Hides(first, path) || Hides(second, path)
  {
    if Hides(second, path) {
      var n :| 0 <= n < |path| && At(second, path[..n]).Value?;
      MergedByPaths(first, second, path[..n]);
    }
    if Hides(Merged(first, second), path) {
      var n :| 0 <= n < |path| && At(Merged(first, second), path[..n]).Value?;
      MergedByPaths(first, second, path[..n]);
    }
  }

  /** So merging is associative exactly when no path is reopened, a condition on what the three
      layers hold. */
  lemma AssociativeIff(base: Json, first: Json, second: Json)
    requires base.Obj? && first.Obj? && second.Obj?
    ensures Merged(Merged(base, first), second) == Merged(base, Merged(first, second)) <==>
            forall path :: !Reopens(base, first, second, path)
  {
    forall path
      ensures At(Merged(Merged(base, first), second), path) == At(Merged(base, Merged(first, second)), path) <==>
              !Reopens(base, first, second, path)
    {
      LayersByPaths(base, first, second, path);
    }
    if forall path :: !Reopens(base, first, second, path) {
      PathsDetermine(Merged(Merged(base, first), second), Merged(base, Merged(first, second)));
    }
  }

  /** It is not in general: a first layer that replaces a dictionary by a plain value, under a
      second layer that puts a dictionary back, loses what the base had there. */
  lemma NotAssociative(k: string, x: string, v: string, w: string)
    ensures
      var base, first, second := Obj(map[k := Obj(map[x := Leaf(v)])]), Obj(map[k := Leaf(w)]), Obj(map[k := EMPTY]);
      Merged(Merged(base, first), second) != Merged(base, Merged(first, second))
  {
    var base, first, second := Obj(map[k := Obj(map[x := Leaf(v)])]), Obj(map[k := Leaf(w)]), Obj(map[k := EMPTY]);
    assert Merged(base, first).fields[k] == MergedField(base, first, k) == Leaf(w);
    assert Merged(Merged(base, first), second).fields[k] == MergedField(Merged(base, first), second, k) == EMPTY;
    assert Merged(first, second).fields[k] == MergedField(first, second, k) == EMPTY;
    assert Merged(base, Merged(first, second)).fields[k] == MergedField(base, Merged(first, second), k);
    EmptyIsIdentity(base.fields[k]);
    assert x in base.fields[k].fields;
  }
}
