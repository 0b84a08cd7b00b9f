/** Classification labels on one message
    (enterprise-mcp-server/app/domains/email_ai/label_manager.py): a 30-second Redis lease
    guards a read of the message's labels followed by a modification, so that a message
    never carries two of the labels this system manages.

    `LabelManager` is the code's module state and its two operations, run by one worker.
    `Sys`, `Enabled` and `Next` interleave any number of workers on one message. */
module LabelLease {

  const LEASE := 30.0

  const CATEGORIES := ["Billing", "IT Support", "HR", "Complaint", "Query", "Escalation", "Other"]
  const PRIORITIES := ["High", "Medium", "Low"]

  // ---------------------------------------------------------------------------
  // One modification
  // ---------------------------------------------------------------------------

  ghost predicate AtMostOne(s: set<string>) {
    forall a, b :: a in s && b in s ==> a == b
  }

  /** The label request after a read of `seen`: add the target, remove every managed label seen. */
  function Relabelled(labels: set<string>, managed: set<string>, seen: set<string>, target: string): set<string> {
    (labels - seen * managed) + {target}
  }

  /** The message already carries the target and no other managed label. */
  predicate Settled(managed: set<string>, seen: set<string>, target: string) {
    seen * managed == {target}
  }

  /** A modification after a stale read keeps at most one managed label exactly when no
      managed label other than the target arrived since the read. */
  lemma SafeIffNothingArrived(labels: set<string>, managed: set<string>, seen: set<string>, target: string)
    requires target in managed
    ensures AtMostOne(Relabelled(labels, managed, seen, target) * managed) <==>
            labels * managed - seen <= {target}
  {
    var after := Relabelled(labels, managed, seen, target) * managed;
    assert target in after;
    if AtMostOne(after) {
      forall x | x in labels * managed - seen
        ensures x == target
      {
        assert x in after;
      }
    } else {
      var a, b :| a in after && b in after && a != b;
      var x := if a == target then b else a;
      assert x in labels * managed - seen;
    }
  }

  /** After an up-to-date read it leaves exactly the target as the managed label and does not
      touch unmanaged ones. */
  lemma FreshReadIsExact(labels: set<string>, managed: set<string>, target: string)
    requires target in managed
    ensures Relabelled(labels, managed, labels, target) * managed == {target}
    ensures Relabelled(labels, managed, labels, target) - managed == labels - managed
  {
  }

  datatype Applied = Applied(labels: set<string>, leaseUntil: real, done: bool)

  /** One undisturbed application of a known label; `getOk` and `modifyOk` say whether Gmail
      answers. */
  function ApplySpec(managed: set<string>, labels: set<string>, leaseUntil: real, target: string, now: real,
                     getOk: bool, modifyOk: bool): Applied {
    if now < leaseUntil then Applied(labels, leaseUntil, false)
    else if !getOk then Applied(labels, now + LEASE, false)
    else if Settled(managed, labels, target) then Applied(labels, now + LEASE, true)
    else if !modifyOk then Applied(labels, now + LEASE, false)
    else Applied(Relabelled(labels, managed, labels, target), now + LEASE, true)
  }

  // ---------------------------------------------------------------------------
  // The code's operations
  // ---------------------------------------------------------------------------

  function Child(cat: string, prio: string): string {
    cat + "/" + prio
  }

  /** The managed label names in the order bootstrap visits them. */
  function NamesOf(cat: string, prios: seq<string>): seq<string> {
    if prios == [] then [cat] else NamesOf(cat, prios[..|prios| - 1]) + [Child(cat, prios[|prios| - 1])]
  }

  function ManagedNames(cats: seq<string>): seq<string> {
    if cats == [] then [] else ManagedNames(cats[..|cats| - 1]) + NamesOf(cats[|cats| - 1], PRIORITIES)
  }

  lemma {:induction false} ChildIsNamed(cat: string, prios: seq<string>, prio: string)
    requires prio in prios
    ensures Child(cat, prio) in NamesOf(cat, prios)
    decreases |prios|
  {
    var n := |prios| - 1;
    if prios[n] != prio {
      assert prio in prios[..n];
      ChildIsNamed(cat, prios[..n], prio);
    }
  }

  /** Every label a classification can ask for is among the managed ones. */
  lemma {:induction false} TargetsAreManaged(cats: seq<string>, cat: string, prio: string)
    requires cat in cats && prio in PRIORITIES
    ensures Child(cat, prio) in ManagedNames(cats)
    decreases |cats|
  {
    var n := |cats| - 1;
    if cats[n] == cat {
      ChildIsNamed(cat, PRIORITIES, prio);
    } else {
      assert cat in cats[..n];
      TargetsAreManaged(cats[..n], cat, prio);
    }
  }

  /** A managed name is a category or one of its children. */
  ghost predicate NamesLabel(cat: string, prios: seq<string>, name: string) {
    name == cat || exists j :: 0 <= j < |prios| && name == Child(cat, prios[j])
  }

  lemma {:induction false} NamesOfIff(cat: string, prios: seq<string>, name: string)
    ensures name in NamesOf(cat, prios) <==> NamesLabel(cat, prios, name)
    ensures |NamesOf(cat, prios)| == |prios| + 1
    decreases |prios|
  {
    if prios != [] {
      var n := |prios| - 1;
      NamesOfIff(cat, prios[..n], name);
      assert forall j :: 0 <= j < n ==> prios[..n][j] == prios[j];
    }
  }

  /** The managed labels are exactly the categories and their children, four for each. */
  lemma {:induction false} ManagedNamesIff(cats: seq<string>, name: string)
    ensures name in ManagedNames(cats) <==> exists i :: 0 <= i < |cats| && NamesLabel(cats[i], PRIORITIES, name)
    ensures |ManagedNames(cats)| == 4 * |cats|
    decreases |cats|
  {
    if cats != [] {
      var n := |cats| - 1;
      ManagedNamesIff(cats[..n], name);
      NamesOfIff(cats[n], PRIORITIES, name);
      assert forall i :: 0 <= i < n ==> cats[..n][i] == cats[i];
    }
  }

  /** The 28 labels: every category is managed itself, and so is every classification. */
  lemma TwentyEightLabels(cat: string, prio: string)
    requires cat in CATEGORIES
    ensures |ManagedNames(CATEGORIES)| == 28
    ensures cat in ManagedNames(CATEGORIES)
    ensures prio in ["High", "Medium", "Low"] ==> cat + "/" + prio in ManagedNames(CATEGORIES)
  {
    ManagedNamesIff(CATEGORIES, cat);
    var i :| 0 <= i < |CATEGORIES| && CATEGORIES[i] == cat;
    assert NamesLabel(CATEGORIES[i], PRIORITIES, cat);
    if prio in ["High", "Medium", "Low"] {
      TargetsAreManaged(CATEGORIES, cat, prio);
    }
  }

  /** Managed ids that stand for the managed names in a cache. */
  ghost predicate Lists(cache: map<string, string>, ids: seq<string>, names: seq<string>) {
    |ids| == |names| && forall i :: 0 <= i < |names| ==> names[i] in cache && ids[i] == cache[names[i]]
  }

  /** The module's cache and list of managed ids, the labels of the mailbox, and one message
      with its lock. */
  class LabelManager {
    var cache: map<string, string>
    var managed: seq<string>
    var mailbox: map<string, string>
    var labels: set<string>
    var leaseUntil: real

    constructor (mailbox: map<string, string>, labels: set<string>)
      ensures cache == map[] && managed == [] && leaseUntil == 0.0
      ensures this.mailbox == mailbox && this.labels == labels
    {
      cache, managed, leaseUntil := map[], [], 0.0;
      this.mailbox := mailbox;
      this.labels := labels;
    }

    /** Creates a label unless it existed when the bootstrap listed the mailbox; `mint` are
        the ids Gmail gives to new labels. */
    method Ensure(name: string, existing: map<string, string>, mint: string -> string, ghost names: seq<string>)
      requires Grown(existing, mint) && Lists(cache, managed, names)
      modifies this`cache, this`mailbox, this`managed
      ensures cache == if name in existing then old(cache) else old(cache)[name := mint(name)]
      ensures mailbox == if name in existing then old(mailbox) else old(mailbox)[name := mint(name)]
      ensures name in cache && managed == old(managed) + [cache[name]]
      ensures Grown(existing, mint) && Lists(cache, managed, names + [name])
    {
      if name !in existing {
        mailbox := mailbox[name := mint(name)];
        cache := cache[name := mint(name)];
      }
      managed := managed + [cache[name]];
    }

    /** Cache and mailbox agree: what existed kept its id, what was added has a minted one. */
    ghost predicate Grown(existing: map<string, string>, mint: string -> string)
      reads this
    {
      && cache == mailbox
      && (forall n :: n in existing ==> n in mailbox && mailbox[n] == existing[n])
      && (forall n :: n in mailbox && n !in existing ==> mailbox[n] == mint(n))
    }

    /** One category: the parent label, then its children. */
    method EnsureFamily(cat: string, existing: map<string, string>, mint: string -> string, ghost names: seq<string>)
      requires Grown(existing, mint) && Lists(cache, managed, names)
      modifies this`cache, this`mailbox, this`managed
      ensures Grown(existing, mint) && Lists(cache, managed, names + NamesOf(cat, PRIORITIES))
    {
      Ensure(cat, existing, mint, names);
      assert names + [cat] == names + NamesOf(cat, []);
      for j := 0 to |PRIORITIES|
        invariant Grown(existing, mint) && Lists(cache, managed, names + NamesOf(cat, PRIORITIES[..j]))
      {
        ghost var done := names + NamesOf(cat, PRIORITIES[..j]);
        assert PRIORITIES[..j + 1][..j] == PRIORITIES[..j];
        assert names + NamesOf(cat, PRIORITIES[..j + 1]) == done + [Child(cat, PRIORITIES[j])];
        Ensure(Child(cat, PRIORITIES[j]), existing, mint, done);
      }
      assert PRIORITIES[..|PRIORITIES|] == PRIORITIES;
    }

    /** All managed labels exist afterwards, existing labels keep their ids, and the managed
        list holds the id of every managed name. */
    method BootstrapLabels(mint: string -> string)
      modifies this`cache, this`mailbox, this`managed
      ensures Grown(old(mailbox), mint)
      ensures Lists(cache, managed, ManagedNames(CATEGORIES))
    {
      var existing := mailbox;
      cache := existing;
      managed := [];
      for i := 0 to |CATEGORIES|
        invariant Grown(existing, mint) && Lists(cache, managed, ManagedNames(CATEGORIES[..i]))
      {
        assert CATEGORIES[..i + 1][..i] == CATEGORIES[..i];
        EnsureFamily(CATEGORIES[i], existing, mint, ManagedNames(CATEGORIES[..i]));
      }
      assert CATEGORIES[..|CATEGORIES|] == CATEGORIES;
    }

    ghost function Managed(): set<string>
      reads this
    {
      set x | x in managed
    }

    /** The label is known and the lock is free. */
    predicate Free(name: string, now: real)
      reads this
    {
      name in cache && leaseUntil <= now
    }

    /** One undisturbed application; `getOk` and `modifyOk` say whether Gmail answers. It
        reports success exactly when the message then carries the target as its only managed
        label, and leaves unmanaged labels alone. */
    method ApplyClassificationLabel(cat: string, prio: string, now: real, getOk: bool, modifyOk: bool)
      returns (done: bool)
      modifies this`labels, this`leaseUntil
      ensures Applied(labels, leaseUntil, done) ==
              if Child(cat, prio) !in cache then Applied(old(labels), old(leaseUntil), false)
              else ApplySpec(Managed(), old(labels), old(leaseUntil), cache[Child(cat, prio)], now, getOk, modifyOk)
      ensures leaseUntil == if old(Free(Child(cat, prio), now)) then now + 30.0 else old(leaseUntil)
      ensures done <==> old(Free(Child(cat, prio), now)) && getOk &&
                        (modifyOk || Settled(Managed(), old(labels), cache[Child(cat, prio)]))
      ensures done && cache[Child(cat, prio)] in Managed() ==> labels * Managed() == {cache[Child(cat, prio)]}
      ensures labels - Managed() - (if done then {cache[Child(cat, prio)]} else {})
           == old(labels) - Managed() - (if done then {cache[Child(cat, prio)]} else {})
      ensures !done ==> labels == old(labels)
    {
      var name := Child(cat, prio);
      if name !in cache {
        return false;
      }
      var target := cache[name];
      if now < leaseUntil {
        return false;
      }
      leaseUntil := now + LEASE;
      if !getOk {
        return false;
      }
      var onMessage := set l | l in labels && l in managed;
      assert onMessage == labels * Managed();
      if onMessage == {target} {
        return true;
      }
      if !modifyOk {
        return false;
      }
      if target in Managed() {
        FreshReadIsExact(labels, Managed(), target);
      }
      labels := (labels - onMessage) + {target};
      assert labels == Relabelled(old(labels), Managed(), old(labels), target);
      return true;
    }
  }

  // ---------------------------------------------------------------------------
  // Interleaved workers on one message
  // ---------------------------------------------------------------------------

  /** Where a worker stands: locked at `since`, or past its read of `seen`. */
  datatype Worker =
    | Idle
    | Locked(since: real, target: string)
    | Fetched(since: real, target: string, seen: set<string>)

  datatype Sys = Sys(managed: set<string>, labels: set<string>, leaseUntil: real, now: real, workers: seq<Worker>)

  /** `Edit` is a person changing unmanaged labels. `Fail` is a Gmail error; `applied` says
      whether a modification reported as failed took effect all the same. */
  datatype Action =
    | Tick(dt: real)
    | Edit(labels: set<string>)
    | Lock(w: nat, target: string)
    | Fetch(w: nat)
    | Modify(w: nat)
    | Fail(w: nat, applied: bool)

  ghost predicate Enabled(s: Sys, act: Action) {
    match act
    case Tick(dt) => dt >= 0.0
    case Edit(labels) => labels * s.managed == s.labels * s.managed
    case Lock(w, target) => w < |s.workers| && s.workers[w].Idle? && target in s.managed && s.leaseUntil <= s.now
    case Fetch(w) => w < |s.workers| && s.workers[w].Locked?
    case Modify(w) => w < |s.workers| && s.workers[w].Fetched?
    case Fail(w, applied) => w < |s.workers| && !s.workers[w].Idle? && (applied ==> s.workers[w].Fetched?)
  }

  /** The lease has not run out under the worker's feet. */
  ghost predicate InTime(s: Sys, act: Action)
    requires Enabled(s, act)
  {
    act.Fetch? || act.Modify? || act.Fail? ==> s.now < s.workers[act.w].since + 30.0
  }

  ghost function Next(s: Sys, act: Action): Sys
    requires Enabled(s, act)
  {
    match act
    case Tick(dt) => s.(now := s.now + dt)
    case Edit(labels) => s.(labels := labels)
    case Lock(w, target) =>
      s.(leaseUntil := s.now + LEASE, workers := s.workers[w := Locked(s.now, target)])
    case Fetch(w) =>
      var pc := s.workers[w];
      s.(workers := s.workers[w := if Settled(s.managed, s.labels, pc.target) then Idle
                                   else Fetched(pc.since, pc.target, s.labels)])
    case Modify(w) => Modified(s, w)
    case Fail(w, applied) => if applied then Modified(s, w) else s.(workers := s.workers[w := Idle])
  }

  ghost function Modified(s: Sys, w: nat): Sys
    requires w < |s.workers| && s.workers[w].Fetched?
  {
    s.(labels := Relabelled(s.labels, s.managed, s.workers[w].seen, s.workers[w].target),
       workers := s.workers[w := Idle])
  }

  ghost predicate Runs(s: Sys, acts: seq<Action>)
    decreases |acts|
  {
    acts == [] || (Enabled(s, acts[0]) && Runs(Next(s, acts[0]), acts[1..]))
  }

  ghost predicate RunsInTime(s: Sys, acts: seq<Action>)
    decreases |acts|
  {
    acts == [] || (Enabled(s, acts[0]) && InTime(s, acts[0]) && RunsInTime(Next(s, acts[0]), acts[1..]))
  }

  ghost function After(s: Sys, acts: seq<Action>): Sys
    requires Runs(s, acts)
    decreases |acts|
  {
    if acts == [] then s else After(Next(s, acts[0]), acts[1..])
  }

  /** The worker's lease is running. */
  ghost predicate Active(s: Sys, w: nat)
    requires w < |s.workers|
  {
    !s.workers[w].Idle? && s.now < s.workers[w].since + LEASE
  }

  ghost predicate Inv(s: Sys) {
    && AtMostOne(s.labels * s.managed)
    && (forall w :: 0 <= w < |s.workers| && !s.workers[w].Idle? ==>
          s.workers[w].target in s.managed && s.workers[w].since <= s.now && s.workers[w].since + LEASE <= s.leaseUntil)
    && (forall v, w :: 0 <= v < |s.workers| && 0 <= w < |s.workers| && Active(s, v) && Active(s, w) ==> v == w)
    && (forall w :: 0 <= w < |s.workers| && Active(s, w) && s.workers[w].Fetched? ==>
          s.workers[w].seen * s.managed == s.labels * s.managed && !Settled(s.managed, s.labels, s.workers[w].target))
  }

  lemma ModifyIsExact(s: Sys, w: nat)
    requires Inv(s) && w < |s.workers| && Active(s, w) && s.workers[w].Fetched?
    ensures Modified(s, w).labels * s.managed == {s.workers[w].target}
    ensures Modified(s, w).labels - s.managed == s.labels - s.managed
  {
    var pc := s.workers[w];
    assert Modified(s, w).labels == Relabelled(s.labels, s.managed, s.labels, pc.target);
    FreshReadIsExact(s.labels, s.managed, pc.target);
  }

  lemma StepInvariant(s: Sys, act: Action)
    requires Inv(s) && Enabled(s, act) && InTime(s, act)
    ensures Inv(Next(s, act))
  {
    var t := Next(s, act);
    assert t.managed == s.managed;
    forall v | 0 <= v < |t.workers| && Active(t, v)
      ensures act == Lock(v, t.workers[v].target) || (Active(s, v) && s.workers[v].since == t.workers[v].since)
      ensures act.Lock? ==> v == act.w
    {
      assert !s.workers[v].Idle? ==> s.workers[v].since + LEASE <= s.leaseUntil;
    }
    if act.Fetch? || act.Modify? || act.Fail? {
      assert Active(s, act.w);
    }
    if act.Modify? || (act.Fail? && act.applied) {
      ModifyIsExact(s, act.w);
    }
  }

  /** Every step but an edit by a person leaves unmanaged labels alone. */
  lemma UnmanagedUntouched(s: Sys, act: Action)
    requires Inv(s) && Enabled(s, act) && !act.Edit?
    ensures Next(s, act).labels - s.managed == s.labels - s.managed
  {
  }

  ghost function Start(managed: set<string>, labels: set<string>, n: nat): Sys {
    Sys(managed, labels, 0.0, 0.0, seq(n, i => Idle))
  }

  lemma {:induction false} RunInvariant(s: Sys, acts: seq<Action>)
    requires Inv(s) && RunsInTime(s, acts)
    ensures Runs(s, acts) && Inv(After(s, acts))
    decreases |acts|
  {
    if acts != [] {
      StepInvariant(s, acts[0]);
      RunInvariant(Next(s, acts[0]), acts[1..]);
    }
  }

  /** If every critical section ends within the lease, then in every interleaving a message
      that starts with at most one managed label always has at most one, at most one worker is
      active, and an apply that completes leaves exactly its target. */
  lemma OneManagedLabel(managed: set<string>, labels: set<string>, n: nat, acts: seq<Action>)
    requires AtMostOne(labels * managed) && RunsInTime(Start(managed, labels, n), acts)
    ensures Runs(Start(managed, labels, n), acts)
    ensures
      var s := After(Start(managed, labels, n), acts);
      && AtMostOne(s.labels * s.managed)
      && (forall w :: 0 <= w < |s.workers| && Enabled(s, Modify(w)) && InTime(s, Modify(w)) ==>
            Next(s, Modify(w)).labels * s.managed == {s.workers[w].target})
      && (forall w :: 0 <= w < |s.workers| && Enabled(s, Fetch(w)) && Next(s, Fetch(w)).workers[w].Idle? ==>
            s.labels * s.managed == {s.workers[w].target})
  {
    RunInvariant(Start(managed, labels, n), acts);
    var s := After(Start(managed, labels, n), acts);
    forall w | 0 <= w < |s.workers| && Enabled(s, Modify(w)) && InTime(s, Modify(w))
      ensures Next(s, Modify(w)).labels * s.managed == {s.workers[w].target}
    {
      ModifyIsExact(s, w);
    }
  }

  /** The bound is needed: a worker that stalls past its lease between read and modification
      puts a second managed label on the message. */
  lemma StalledWorkerAddsASecondLabel(a: string, b: string)
    requires a != b
    ensures
      var s := Start({a, b}, {}, 2);
      exists acts :: Runs(s, acts) && !AtMostOne(After(s, acts).labels * {a, b})
  {
    var s := Start({a, b}, {}, 2);
    var s1 := Next(s, Lock(0, a));
    var s2 := Next(s1, Fetch(0));
    var s3 := Next(s2, Tick(LEASE));
    var s4 := Next(s3, Lock(1, b));
    var s5 := Next(s4, Fetch(1));
    var s6 := Next(s5, Modify(1));
    var s7 := Next(s6, Modify(0));
    assert a in s7.labels * {a, b} && b in s7.labels * {a, b};
    RunsStep(s6, Modify(0), []);
    RunsStep(s5, Modify(1), [Modify(0)]);
    RunsStep(s4, Fetch(1), [Modify(1)] + [Modify(0)]);
    RunsStep(s3, Lock(1, b), [Fetch(1)] + ([Modify(1)] + [Modify(0)]));
    RunsStep(s2, Tick(LEASE), [Lock(1, b)] + ([Fetch(1)] + ([Modify(1)] + [Modify(0)])));
    RunsStep(s1, Fetch(0), [Tick(LEASE)] + ([Lock(1, b)] + ([Fetch(1)] + ([Modify(1)] + [Modify(0)]))));
    var rest := [Fetch(0)] + ([Tick(LEASE)] + ([Lock(1, b)] + ([Fetch(1)] + ([Modify(1)] + [Modify(0)]))));
    RunsStep(s, Lock(0, a), rest);
    assert Runs(s, [Lock(0, a)] + rest) && After(s, [Lock(0, a)] + rest) == s7;
  }

  lemma RunsStep(s: Sys, act: Action, rest: seq<Action>)
    requires Enabled(s, act) && Runs(Next(s, act), rest)
    ensures Runs(s, [act] + rest) && After(s, [act] + rest) == After(Next(s, act), rest)
  {
    assert ([act] + rest)[1..] == rest;
  }

  // ---------------------------------------------------------------------------
  // The method is a run of these steps
  // ---------------------------------------------------------------------------

  ghost function ApplyActions(s: Sys, w: nat, target: string, getOk: bool, modifyOk: bool): seq<Action> {
    if s.now < s.leaseUntil then []
    else if !getOk then [Lock(w, target)] + [Fail(w, false)]
    else if Settled(s.managed, s.labels, target) then [Lock(w, target)] + [Fetch(w)]
    else [Lock(w, target)] + ([Fetch(w)] + [if modifyOk then Modify(w) else Fail(w, false)])
  }

  lemma InTimeStep(s: Sys, act: Action, rest: seq<Action>)
    requires Enabled(s, act) && InTime(s, act) && RunsInTime(Next(s, act), rest)
    ensures RunsInTime(s, [act] + rest)
  {
    assert ([act] + rest)[1..] == rest;
  }

  lemma InTimeRuns(s: Sys, acts: seq<Action>)
    requires RunsInTime(s, acts)
    ensures Runs(s, acts)
    decreases |acts|
  {
    if acts != [] {
      InTimeRuns(Next(s, acts[0]), acts[1..]);
    }
  }

  /** A run of one step after another. */
  lemma OneMore(s: Sys, act: Action, rest: seq<Action>)
    requires Enabled(s, act) && InTime(s, act) && RunsInTime(Next(s, act), rest)
    ensures RunsInTime(s, [act] + rest) && Runs(s, [act] + rest) && Runs(Next(s, act), rest)
    ensures After(s, [act] + rest) == After(Next(s, act), rest)
  {
    InTimeRuns(Next(s, act), rest);
    InTimeStep(s, act, rest);
    RunsStep(s, act, rest);
  }

  /** Undisturbed, the steps of one worker are the method, and they are in time. */
  lemma ApplyIsARun(s: Sys, w: nat, target: string, getOk: bool, modifyOk: bool)
    requires w < |s.workers| && s.workers[w].Idle? && target in s.managed
    ensures
      var acts := ApplyActions(s, w, target, getOk, modifyOk);
      var r := ApplySpec(s.managed, s.labels, s.leaseUntil, target, s.now, getOk, modifyOk);
      && RunsInTime(s, acts) && Runs(s, acts)
      && After(s, acts) == s.(labels := r.labels, leaseUntil := r.leaseUntil)
  {
    if s.leaseUntil <= s.now {
      var s1 := Next(s, Lock(w, target));
      if !getOk {
        OneMore(s1, Fail(w, false), []);
        OneMore(s, Lock(w, target), [Fail(w, false)]);
      } else if Settled(s.managed, s.labels, target) {
        OneMore(s1, Fetch(w), []);
        OneMore(s, Lock(w, target), [Fetch(w)]);
      } else {
        var act := if modifyOk then Modify(w) else Fail(w, false);
        var s2 := Next(s1, Fetch(w));
        OneMore(s2, act, []);
        OneMore(s1, Fetch(w), [act]);
        OneMore(s, Lock(w, target), [Fetch(w)] + [act]);
      }
      assert s.workers[w := Idle] == s.workers;
    }
  }
}
