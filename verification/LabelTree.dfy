/** Label trees in Gmail (utils/gmail_label_manager.py): a nested configuration is flattened
    into a creation order, and previously managed labels are deleted deepest first in a store
    that refuses to delete a label which still has labels below it. */
module LabelTree {
  import opened StableSort

  datatype Node = Node(name: string, children: seq<Node>)

  /** One entry of the hierarchy: a label and the names of its children. */
  datatype Entry = Entry(name: string, children: seq<string>)

  // ---------------------------------------------------------------------------
  // Flattening
  // ---------------------------------------------------------------------------

  function Names(nodes: seq<Node>): seq<string> {
    seq(|nodes|, i requires 0 <= i < |nodes| => nodes[i].name)
  }

  function Hierarchy(nodes: seq<Node>): seq<Entry> {
    if nodes == [] then []
    else [Entry(nodes[0].name, Names(nodes[0].children))] + Hierarchy(nodes[0].children) + Hierarchy(nodes[1..])
  }

  /** `_build_hierarchy`'s inner `walk`, which appends to the shared result. */
  method Walk(nodes: seq<Node>, result: seq<Entry>) returns (r: seq<Entry>)
    ensures r == result + Hierarchy(nodes)
    decreases nodes
  {
    r := result;
    for i := 0 to |nodes|
      invariant r + Hierarchy(nodes[i..]) == result + Hierarchy(nodes)
    {
      ghost var before := r;
      var node := nodes[i];
      assert nodes[i..][0] == node && nodes[i..][1..] == nodes[i + 1..];
      var entry := Entry(node.name, Names(node.children));
      r := r + [entry];
      if node.children != [] {
        r := Walk(node.children, r);
      }
      assert r == before + [entry] + Hierarchy(node.children);
      assert before + Hierarchy(nodes[i..]) == before + ([entry] + Hierarchy(node.children) + Hierarchy(nodes[i + 1..]));
    }
  }

  function Flat(h: seq<Entry>): seq<string> {
    if h == [] then [] else [h[0].name] + h[0].children + Flat(h[1..])
  }

  /** First occurrences only, of names not in `seen`. */
  function Unseen(names: seq<string>, seen: set<string>): seq<string> {
    if names == [] then []
    else if names[0] in seen then Unseen(names[1..], seen)
    else [names[0]] + Unseen(names[1..], seen + {names[0]})
  }

  ghost function Elems(s: seq<string>): set<string> {
    set x | x in s
  }

  /** One turn of the loop: `x` is appended unless it was seen. */
  lemma TakeNext(all: seq<string>, x: string, rest: seq<string>, seen: set<string>)
    ensures all + Unseen([x] + rest, seen) == (if x in seen then all else all + [x]) + Unseen(rest, seen + {x})
  {
    assert ([x] + rest)[1..] == rest;
    if x in seen {
      assert seen + {x} == seen;
    }
  }

  lemma {:induction false} FlatOfConcat(a: seq<Entry>, b: seq<Entry>)
    ensures Flat(a + b) == Flat(a) + Flat(b)
  {
    if a == [] {
      assert a + b == b;
    } else {
      assert (a + b)[1..] == a[1..] + b;
      FlatOfConcat(a[1..], b);
    }
  }

  /** The creation order of `bootstrap_labels`. */
  function CreationOrder(h: seq<Entry>): seq<string> {
    Unseen(Flat(h), {})
  }

  lemma FlatFrom(h: seq<Entry>, i: nat)
    requires i < |h|
    ensures Flat(h[i..]) == [h[i].name] + (h[i].children + Flat(h[i + 1..]))
  {
    assert h[i..][0] == h[i] && h[i..][1..] == h[i + 1..];
  }

  lemma NextChild(children: seq<string>, j: nat, rest: seq<string>)
    requires j < |children|
    ensures children[j..] + rest == [children[j]] + (children[j + 1..] + rest)
  {
  }

  /** Its nested loops with the `seen` set. */
  method CollectLabels(h: seq<Entry>) returns (all: seq<string>)
    ensures all == CreationOrder(h)
  {
    all := [];
    var seen: set<string> := {};
    for i := 0 to |h|
      invariant all + Unseen(Flat(h[i..]), seen) == CreationOrder(h)
    {
      var e := h[i];
      ghost var rest := Flat(h[i + 1..]);
      FlatFrom(h, i);
      TakeNext(all, e.name, e.children + rest, seen);
      if e.name !in seen {
        all := all + [e.name];
        seen := seen + {e.name};
      }
      assert seen == seen + {e.name} && e.children[0..] == e.children;
      for j := 0 to |e.children|
        invariant all + Unseen(e.children[j..] + rest, seen) == CreationOrder(h)
      {
        var c := e.children[j];
        NextChild(e.children, j, rest);
        TakeNext(all, c, e.children[j + 1..] + rest, seen);
        if c !in seen {
          all := all + [c];
          seen := seen + {c};
        }
        assert seen == seen + {c};
      }
      assert e.children[|e.children|..] + rest == rest;
    }
  }

  /** `_all_label_names`. */
  method AllLabelNames(h: seq<Entry>) returns (names: set<string>)
    ensures names == Elems(Flat(h))
  {
    names := {};
    for i := 0 to |h|
      invariant names + Elems(Flat(h[i..])) == Elems(Flat(h))
    {
      assert h[i..][0] == h[i] && h[i..][1..] == h[i + 1..];
      names := names + {h[i].name} + set c | c in h[i].children;
    }
  }

  // ---------------------------------------------------------------------------
  // Creation order
  // ---------------------------------------------------------------------------

  /** All names of a forest, each node's before those below it. */
  ghost function TreeNames(nodes: seq<Node>): seq<string> {
    if nodes == [] then [] else [nodes[0].name] + TreeNames(nodes[0].children) + TreeNames(nodes[1..])
  }

  /** Somewhere in the forest, `c` names a child of a node named `p`. */
  ghost predicate Edge(nodes: seq<Node>, p: string, c: string) {
    nodes != [] &&
    ((nodes[0].name == p && c in Names(nodes[0].children)) || Edge(nodes[0].children, p, c) || Edge(nodes[1..], p, c))
  }

  ghost predicate Distinct(s: seq<string>) {
    forall i, j :: 0 <= i < j < |s| ==> s[i] != s[j]
  }

  /** Wherever `c` stands, `p` stands before it. */
  ghost predicate Precedes(s: seq<string>, p: string, c: string) {
    forall j :: 0 <= j < |s| && s[j] == c ==> p in s[..j]
  }

  lemma {:induction false} ChildrenAreNames(nodes: seq<Node>)
    ensures Elems(Names(nodes)) <= Elems(TreeNames(nodes))
  {
    if nodes != [] {
      ChildrenAreNames(nodes[1..]);
      assert Names(nodes) == [nodes[0].name] + Names(nodes[1..]);
      forall x | x in Names(nodes)
        ensures x in TreeNames(nodes)
      {
        assert x == nodes[0].name || x in Elems(Names(nodes[1..]));
      }
    }
  }

  lemma FlatOfHierarchy(nodes: seq<Node>)
    requires nodes != []
    ensures Flat(Hierarchy(nodes)) ==
            [nodes[0].name] + Names(nodes[0].children) + Flat(Hierarchy(nodes[0].children)) + Flat(Hierarchy(nodes[1..]))
  {
    var e := Entry(nodes[0].name, Names(nodes[0].children));
    FlatOfConcat([e] + Hierarchy(nodes[0].children), Hierarchy(nodes[1..]));
    FlatOfConcat([e], Hierarchy(nodes[0].children));
    assert [e][1..] == [];
  }

  /** The hierarchy mentions exactly the labels of the forest. */
  lemma {:induction false} SameNames(nodes: seq<Node>)
    ensures Elems(Flat(Hierarchy(nodes))) == Elems(TreeNames(nodes))
  {
    if nodes != [] {
      FlatOfHierarchy(nodes);
      SameNames(nodes[0].children);
      SameNames(nodes[1..]);
      ChildrenAreNames(nodes[0].children);
      var a, b, c, d := [nodes[0].name], Names(nodes[0].children), Flat(Hierarchy(nodes[0].children)), Flat(Hierarchy(nodes[1..]));
      assert Elems(a + b + c + d) == Elems(a) + Elems(b) + Elems(c) + Elems(d);
      var t, u := TreeNames(nodes[0].children), TreeNames(nodes[1..]);
      assert Elems(a + t + u) == Elems(a) + Elems(t) + Elems(u);
    }
  }

  lemma {:induction false} EdgeIsNamed(nodes: seq<Node>, p: string, c: string)
    requires Edge(nodes, p, c)
    ensures c in TreeNames(nodes) && p in TreeNames(nodes)
  {
    if nodes[0].name == p && c in Names(nodes[0].children) {
      ChildrenAreNames(nodes[0].children);
      assert c in Elems(Names(nodes[0].children));
    } else if Edge(nodes[0].children, p, c) {
      EdgeIsNamed(nodes[0].children, p, c);
    } else {
      EdgeIsNamed(nodes[1..], p, c);
    }
  }

  /** The hierarchy's entries are exactly the edges of the forest: each label is listed with
      the names of its own children. */
  lemma {:induction false} EntriesAreEdges(nodes: seq<Node>, p: string, c: string)
    ensures Edge(nodes, p, c) <==> Listed(Hierarchy(nodes), p, c)
  {
    if nodes != [] {
      var e, a, b := Entry(nodes[0].name, Names(nodes[0].children)), Hierarchy(nodes[0].children), Hierarchy(nodes[1..]);
      EntriesAreEdges(nodes[0].children, p, c);
      EntriesAreEdges(nodes[1..], p, c);
      ListedOfConcat([e] + a, b, p, c);
      ListedOfConcat([e], a, p, c);
      assert [e][0] == e;
    }
  }

  ghost predicate Listed(h: seq<Entry>, p: string, c: string) {
    exists i :: 0 <= i < |h| && h[i].name == p && c in h[i].children
  }

  lemma ListedOfConcat(a: seq<Entry>, b: seq<Entry>, p: string, c: string)
    ensures Listed(a + b, p, c) <==> Listed(a, p, c) || Listed(b, p, c)
  {
    if i :| 0 <= i < |b| && b[i].name == p && c in b[i].children {
      assert (a + b)[|a| + i] == b[i];
    }
    if i :| 0 <= i < |a| && a[i].name == p && c in a[i].children {
      assert (a + b)[i] == a[i];
    }
  }

  lemma PrecedesLater(a: seq<string>, b: seq<string>, p: string, c: string)
    requires Precedes(b, p, c) && c !in a
    ensures Precedes(a + b, p, c)
  {
    forall j | 0 <= j < |a + b| && (a + b)[j] == c
      ensures p in (a + b)[..j]
    {
      assert j >= |a|;
      assert (a + b)[..j] == a + b[..j - |a|];
    }
  }

  lemma PrecedesEarlier(a: seq<string>, b: seq<string>, p: string, c: string)
    requires Precedes(a, p, c) && c !in b
    ensures Precedes(a + b, p, c)
  {
    forall j | 0 <= j < |a + b| && (a + b)[j] == c
      ensures p in (a + b)[..j]
    {
      assert j < |a|;
      assert (a + b)[..j] == a[..j];
    }
  }

  lemma DistinctParts(n: string, t: seq<string>, u: seq<string>)
    requires Distinct([n] + t + u)
    ensures Distinct(t) && Distinct(u) && n !in t && n !in u && forall x :: x in t ==> x !in u
  {
    var s := [n] + t + u;
    assert s[0] == n;
    assert forall i :: 0 <= i < |t| ==> s[1 + i] == t[i];
    assert forall i :: 0 <= i < |u| ==> s[1 + |t| + i] == u[i];
  }

  /** With distinct names, every parent stands before each of its children. */
  lemma {:induction false} ParentsComeFirst(nodes: seq<Node>, p: string, c: string)
    requires Distinct(TreeNames(nodes)) && Edge(nodes, p, c)
    ensures Precedes(Flat(Hierarchy(nodes)), p, c)
  {
    var n, kids, rest := nodes[0], nodes[0].children, nodes[1..];
    var head, below, after := [n.name] + Names(kids), Flat(Hierarchy(kids)), Flat(Hierarchy(rest));
    FlatOfHierarchy(nodes);
    DistinctParts(n.name, TreeNames(kids), TreeNames(rest));
    SameNames(kids);
    SameNames(rest);
    assert forall x :: x in below <==> x in Elems(below);
    assert forall x :: x in after <==> x in Elems(after);
    assert forall x :: x in TreeNames(kids) <==> x in Elems(TreeNames(kids));
    assert forall x :: x in TreeNames(rest) <==> x in Elems(TreeNames(rest));
    ChildrenAreNames(kids);
    assert forall x :: x in Names(kids) ==> x in Elems(Names(kids));
    if n.name == p && c in Names(kids) {
      assert forall j :: 0 < j <= |head + below| ==> (head + below)[..j][0] == p;
      PrecedesEarlier(head + below, after, p, c);
    } else if Edge(kids, p, c) {
      EdgeIsNamed(kids, p, c);
      ParentsComeFirst(kids, p, c);
      RootsAreNoChildren(kids, p, c);
      PrecedesLater(head, below, p, c);
      PrecedesEarlier(head + below, after, p, c);
    } else {
      EdgeIsNamed(rest, p, c);
      ParentsComeFirst(rest, p, c);
      PrecedesLater(head + below, after, p, c);
    }
  }

  /** A root of a forest with distinct names is nobody's child. */
  lemma {:induction false} RootsAreNoChildren(nodes: seq<Node>, p: string, c: string)
    requires Distinct(TreeNames(nodes)) && Edge(nodes, p, c)
    ensures c !in Names(nodes)
  {
    var kids, rest := nodes[0].children, nodes[1..];
    DistinctParts(nodes[0].name, TreeNames(kids), TreeNames(rest));
    assert Names(nodes) == [nodes[0].name] + Names(rest);
    ChildrenAreNames(kids);
    ChildrenAreNames(rest);
    assert forall x :: x in Names(kids) ==> x in Elems(TreeNames(kids));
    assert forall x :: x in Names(rest) ==> x in Elems(TreeNames(rest));
    if Edge(rest, p, c) {
      EdgeIsNamed(rest, p, c);
      RootsAreNoChildren(rest, p, c);
    } else if Edge(kids, p, c) {
      EdgeIsNamed(kids, p, c);
    }
  }

  lemma {:induction false} UnseenIsDistinct(s: seq<string>, seen: set<string>)
    ensures Distinct(Unseen(s, seen))
    ensures Elems(Unseen(s, seen)) == Elems(s) - seen
  {
    if s != [] {
      var seen' := if s[0] in seen then seen else seen + {s[0]};
      UnseenIsDistinct(s[1..], seen');
      assert Elems(s) == {s[0]} + Elems(s[1..]);
      var r := Unseen(s[1..], seen');
      if s[0] !in seen {
        assert s[0] !in Elems(r);
        assert Elems([s[0]] + r) == {s[0]} + Elems(r);
      }
    }
  }

  lemma {:induction false} UnseenKeepsPrecedence(s: seq<string>, seen: set<string>, p: string, c: string)
    requires (p in seen || Precedes(s, p, c)) && (p !in seen ==> c !in seen)
    ensures p in seen || Precedes(Unseen(s, seen), p, c)
  {
    if s != [] && p !in seen {
      var t := s[1..];
      assert s[..0] == [];
      assert s[0] != c;
      if s[0] != p {
        forall j | 0 <= j < |t| && t[j] == c
          ensures p in t[..j]
        {
          assert s[j + 1] == c && s[..j + 1] == [s[0]] + t[..j];
        }
        UnseenKeepsPrecedence(t, if s[0] in seen then seen else seen + {s[0]}, p, c);
        if s[0] !in seen {
          PrecedesLater([s[0]], Unseen(t, seen + {s[0]}), p, c);
        }
      } else {
        var r := Unseen(s, seen);
        assert r[0] == p;
        assert forall j :: 0 < j <= |r| ==> r[..j][0] == p;
      }
    }
  }

  /** For every forest of any depth with distinct names, each label is created exactly once,
      every parent before each of its children, and nothing else is created. */
  lemma CreationOrderIsParentFirst(nodes: seq<Node>)
    ensures Distinct(CreationOrder(Hierarchy(nodes)))
    ensures Elems(CreationOrder(Hierarchy(nodes))) == Elems(TreeNames(nodes)) == Elems(Flat(Hierarchy(nodes)))
    ensures Distinct(TreeNames(nodes)) ==>
      forall p, c :: Edge(nodes, p, c) ==>
        c in CreationOrder(Hierarchy(nodes)) && Precedes(CreationOrder(Hierarchy(nodes)), p, c)
  {
    SameNames(nodes);
    UnseenIsDistinct(Flat(Hierarchy(nodes)), {});
    if Distinct(TreeNames(nodes)) {
      forall p, c | Edge(nodes, p, c)
        ensures c in CreationOrder(Hierarchy(nodes)) && Precedes(CreationOrder(Hierarchy(nodes)), p, c)
      {
        EdgeIsNamed(nodes, p, c);
        assert c in Elems(TreeNames(nodes));
        assert c in Elems(CreationOrder(Hierarchy(nodes)));
        ParentsComeFirst(nodes, p, c);
        UnseenKeepsPrecedence(Flat(Hierarchy(nodes)), {}, p, c);
      }
    }
  }

  // ---------------------------------------------------------------------------
  // Deletion
  // ---------------------------------------------------------------------------

  datatype Label = Label(id: string, name: string, system: bool)

  function Depth(name: string): nat {
    if name == "" then 0 else (if name[0] == '/' then 1 else 0) + Depth(name[1..])
  }

  lemma {:induction false} DepthOfConcat(a: string, b: string)
    ensures Depth(a + b) == Depth(a) + Depth(b)
  {
    if a == "" {
      assert a + b == b;
    } else {
      assert (a + b)[1..] == a[1..] + b;
      DepthOfConcat(a[1..], b);
    }
  }

  /** `m` is nested below `l`. */
  predicate Below(l: Label, m: Label) {
    l.name + "/" <= m.name
  }

  lemma BelowIsDeeper(l: Label, m: Label)
    requires Below(l, m)
    ensures Depth(m.name) > Depth(l.name)
  {
    var tail := m.name[|l.name| + 1..];
    assert m.name == l.name + "/" + tail;
    DepthOfConcat(l.name + "/", tail);
    DepthOfConcat(l.name, "/");
    assert "/"[1..] == "";
  }

  lemma BelowIsTransitive(l: Label, m: Label, n: Label)
    requires Below(l, m) && Below(m, n)
    ensures Below(l, n)
  {
    assert n.name[..|m.name|] == m.name;
  }

  predicate Managed(l: Label, prefixes: seq<string>) {
    !l.system && exists i :: 0 <= i < |prefixes| && prefixes[i] <= l.name
  }

  lemma PrefixIsInherited(l: Label, m: Label, prefixes: seq<string>)
    requires Below(l, m) && Managed(l, prefixes) && !m.system
    ensures Managed(m, prefixes)
  {
    var i :| 0 <= i < |prefixes| && prefixes[i] <= l.name;
    assert m.name[..|l.name|] == l.name;
    assert prefixes[i] <= m.name;
  }

  /** One matching prefix is enough, more prefixes manage more, no prefix manages nothing, and
      system labels are never managed. */
  lemma PrefixesAdd(l: Label, a: seq<string>, b: seq<string>, p: string)
    ensures Managed(l, a + b) <==> Managed(l, a) || Managed(l, b)
    ensures Managed(l, [p]) <==> !l.system && p <= l.name
    ensures !Managed(l, [])
  {
    assert [p][0] == p;
    if Managed(l, a) {
      var i :| 0 <= i < |a| && a[i] <= l.name;
      assert (a + b)[i] <= l.name;
    } else if Managed(l, b) {
      var i :| 0 <= i < |b| && b[i] <= l.name;
      assert (a + b)[|a| + i] <= l.name;
    }
  }

  /** A system label is nested below `l`. */
  ghost predicate Blocked(store: set<Label>, l: Label) {
    exists s :: s in store && s.system && Below(l, s)
  }

  /** What deletion leaves: every label that is not managed, and those it cannot delete. */
  ghost function Remaining(store: set<Label>, prefixes: seq<string>): set<Label> {
    set l | l in store && (!Managed(l, prefixes) || Blocked(store, l))
  }

  function DeeperFirst(): Label -> int {
    (l: Label) => var d: int := Depth(l.name); -d
  }

  function IsManaged(prefixes: seq<string>): Label -> bool {
    (l: Label) => Managed(l, prefixes)
  }

  /** The labels to delete, in the order the code deletes them. */
  function DeletionOrder(listing: seq<Label>, prefixes: seq<string>): seq<Label> {
    Sort(Filter(listing, IsManaged(prefixes)), DeeperFirst())
  }

  lemma {:induction false} FilterHas<T>(s: seq<T>, q: T -> bool, x: T)
    ensures x in Filter(s, q) <==> x in s && q(x)
  {
    if s != [] {
      FilterHas(s[1..], q, x);
      assert x in s <==> x == s[0] || x in s[1..];
    }
  }

  /** It holds exactly the managed labels, deeper ones first. */
  lemma DeletionOrderIsDeepestFirst(listing: seq<Label>, prefixes: seq<string>)
    ensures
      var order := DeletionOrder(listing, prefixes);
      && (forall l :: l in order <==> l in listing && Managed(l, prefixes))
      && (forall i, j :: 0 <= i < |order| && 0 <= j < |order| && Depth(order[i].name) > Depth(order[j].name) ==> i < j)
  {
    var managed := Filter(listing, IsManaged(prefixes));
    var order := DeletionOrder(listing, prefixes);
    SortOrders(managed, DeeperFirst());
    forall l
      ensures l in order <==> l in listing && Managed(l, prefixes)
    {
      FilterHas(listing, IsManaged(prefixes), l);
      assert l in order <==> l in multiset(order);
      assert l in managed <==> l in multiset(managed);
    }
    forall i, j | 0 <= i < |order| && 0 <= j < |order| && Depth(order[i].name) > Depth(order[j].name)
      ensures i < j
    {
      assert DeeperFirst()(order[i]) < DeeperFirst()(order[j]);
    }
  }

  /** A deletion is refused exactly when a system label is below, once the managed labels that
      come before have been dealt with. */
  lemma RefusedIffBlocked(store: set<Label>, prefixes: seq<string>, order: seq<Label>, i: nat, now: set<Label>)
    requires forall l :: l in order <==> l in store && Managed(l, prefixes)
    requires forall i, j :: 0 <= i < |order| && 0 <= j < |order| && Depth(order[i].name) > Depth(order[j].name) ==> i < j
    requires i < |order|
    requires forall l :: l in now <==> l in store && (l in order[..i] ==> Blocked(store, l))
    ensures (exists m :: m in now && Below(order[i], m)) <==> Blocked(store, order[i])
  {
    var l := order[i];
    if Blocked(store, l) {
      var s :| s in store && s.system && Below(l, s);
      assert s !in order;
      assert s in now;
    }
    if m :| m in now && Below(l, m) {
      if !m.system {
        assert l in order;
        PrefixIsInherited(l, m, prefixes);
        BelowIsDeeper(l, m);
        assert m in order;
        var k :| 0 <= k < |order| && order[k] == m;
        assert m in order[..i];
        var s :| s in store && s.system && Below(m, s);
        BelowIsTransitive(l, m, s);
      }
    }
  }

  /** The labels of a mailbox. */
  class Mailbox {
    var labels: set<Label>

    constructor (labels: set<Label>)
      ensures this.labels == labels
    {
      this.labels := labels;
    }

    /** Gmail refuses to delete a label that still has labels below it. */
    method Delete(l: Label) returns (refused: bool)
      modifies this
      ensures refused <==> exists m :: m in old(labels) && Below(l, m)
      ensures labels == if refused then old(labels) else old(labels) - {l}
    {
      if exists m :: m in labels && Below(l, m) {
        return true;
      }
      labels := labels - {l};
      return false;
    }

    /** Deletes every managed label that has no system label below it, and is refused for no
        other; `listing` is the store in the order Gmail lists it. */
    method DeleteManagedLabels(listing: seq<Label>, prefixes: seq<string>) returns (refused: seq<Label>)
      requires forall l :: l in listing <==> l in labels
      modifies this
      ensures labels == Remaining(old(labels), prefixes)
      ensures forall l :: l in refused <==> l in old(labels) && Managed(l, prefixes) && Blocked(old(labels), l)
    {
      ghost var store := labels;
      var order := DeletionOrder(listing, prefixes);
      DeletionOrderIsDeepestFirst(listing, prefixes);
      refused := [];
      for i := 0 to |order|
        invariant forall l :: l in labels <==> l in store && (l in order[..i] ==> Blocked(store, l))
        invariant forall l :: l in refused <==> l in order[..i] && Blocked(store, l)
      {
        RefusedIffBlocked(store, prefixes, order, i, labels);
        assert order[..i + 1] == order[..i] + [order[i]];
        var no := Delete(order[i]);
        if no {
          refused := refused + [order[i]];
        }
      }
      assert order[..|order|] == order;
    }

    /** An existing label is kept and its id answered (the code takes it on a 409 answer). */
    method Create(name: string, id: string) returns (got: string)
      modifies this
      ensures labels == if HasName(old(labels), name) then old(labels) else old(labels) + {Label(id, name, false)}
      ensures Identifies(labels, name, got)
    {
      if l :| l in labels && l.name == name {
        return l.id;
      }
      labels := labels + {Label(id, name, false)};
      assert Label(id, name, false) in labels;
      return id;
    }

    /** `bootstrap_labels`, without API failures: it answers the id of every configured label. */
    method BootstrapLabels(listing: seq<Label>, prefixes: seq<string>, nodes: seq<Node>, mint: string -> string)
      returns (labelMap: map<string, string>)
      requires forall l :: l in listing <==> l in labels
      modifies this
      ensures Booted(old(labels), labels, prefixes, TreeNames(nodes))
      ensures labelMap.Keys == Elems(TreeNames(nodes))
      ensures forall n :: n in labelMap ==> Identifies(labels, n, labelMap[n])
    {
      ghost var store := labels;
      var hierarchy := Walk(nodes, []);
      assert hierarchy == Hierarchy(nodes);
      var refused := DeleteManagedLabels(listing, prefixes);
      ghost var kept := labels;
      var all := CollectLabels(hierarchy);
      CreationOrderIsParentFirst(nodes);
      labelMap := map[];
      for i := 0 to |all|
        invariant kept <= labels
        invariant forall l :: l in labels ==> l in kept || (!l.system && l.name in all[..i])
        invariant labelMap.Keys == Elems(all[..i])
        invariant forall n :: n in labelMap ==> Identifies(labels, n, labelMap[n])
      {
        ghost var before := labels;
        assert all[..i + 1] == all[..i] + [all[i]];
        var id := Create(all[i], mint(all[i]));
        StillIdentifies(before, labels, labelMap);
        labelMap := labelMap[all[i] := id];
      }
      assert all[..|all|] == all;
      MappedNamesExist(labels, labelMap);
      forall l | l in labels && l !in kept
        ensures !l.system && l.name in TreeNames(nodes)
      {
        assert l.name in Elems(all);
      }
      forall n | n in TreeNames(nodes)
        ensures HasName(labels, n)
      {
        assert n in Elems(TreeNames(nodes)) && n in labelMap;
      }
    }
  }

  /** A label of the store has this name and this id. */
  ghost predicate Identifies(store: set<Label>, name: string, id: string) {
    exists l :: l in store && l.name == name && l.id == id
  }

  lemma StillIdentifies(before: set<Label>, after: set<Label>, ids: map<string, string>)
    requires before <= after && forall n :: n in ids ==> Identifies(before, n, ids[n])
    ensures forall n :: n in ids ==> Identifies(after, n, ids[n])
  {
  }

  lemma MappedNamesExist(store: set<Label>, ids: map<string, string>)
    requires forall n :: n in ids ==> Identifies(store, n, ids[n])
    ensures forall n :: n in ids ==> HasName(store, n)
  {
  }

  /** What one bootstrap does to the store. */
  ghost predicate Booted(before: set<Label>, after: set<Label>, prefixes: seq<string>, names: seq<string>) {
    && Remaining(before, prefixes) <= after
    && (forall l :: l in after ==> l in Remaining(before, prefixes) || (!l.system && l.name in names))
    && (forall n :: n in names ==> HasName(after, n))
  }

  ghost predicate HasName(store: set<Label>, n: string) {
    exists l :: l in store && l.name == n
  }

  /** Bootstrapping twice gives the same label names as once, also when some deletions are refused. */
  lemma BootstrapIsIdempotent(s0: set<Label>, s1: set<Label>, s2: set<Label>, prefixes: seq<string>, names: seq<string>)
    requires Booted(s0, s1, prefixes, names) && Booted(s1, s2, prefixes, names)
    ensures forall n :: HasName(s1, n) <==> HasName(s2, n)
  {
    forall l | l in Remaining(s0, prefixes)
      ensures l in s2
    {
      if Blocked(s0, l) {
        var s :| s in s0 && s.system && Below(l, s);
        assert s in Remaining(s0, prefixes);
        assert Blocked(s1, l);
      }
      assert l in Remaining(s1, prefixes);
    }
    forall n
      ensures HasName(s1, n) <==> HasName(s2, n)
    {
      if HasName(s1, n) {
        var l :| l in s1 && l.name == n;
        assert l in Remaining(s0, prefixes) || n in names;
      }
      if HasName(s2, n) {
        var l :| l in s2 && l.name == n;
        assert l in Remaining(s1, prefixes) || n in names;
      }
    }
  }
}
