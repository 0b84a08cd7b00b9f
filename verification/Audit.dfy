/** The audit writer (agents/audit_agent.py): writer threads and one flush daemon share a
    buffer, a lock and an availability flag; the promise is that no event is dropped.

    `AuditWriter` is the code's class, run by one thread. `Sys`, `Enabled` and `Next` are
    the same operations cut into the steps between which threads may interleave. */
module Audit {

  /** An event; `email` is empty when the event has no email id. */
  datatype Event = Event(kind: string, agent: string, email: string, stamp: int, payload: string)

  // ---------------------------------------------------------------------------
  // One attempt to persist
  // ---------------------------------------------------------------------------

  /** What the environment does during one attempt: whether the payload serialises, the
      connection opens, the orphan lookup answers and finds the email, the insert succeeds. */
  datatype Answer = Answer(encodes: bool, connects: bool, looksUp: bool, known: bool, inserts: bool)

  datatype Outcome = Inserted | Discarded | Raised

  /** It inserts exactly when everything answers and the event names no email or a known one;
      it discards exactly the orphans it gets to look up; anything else raises. */
  function Persist(e: Event, a: Answer): (o: Outcome)
    ensures o == Inserted <==> a.encodes && a.connects && a.inserts && (e.email == "" || (a.looksUp && a.known))
    ensures o == Discarded <==> a.encodes && a.connects && e.email != "" && a.looksUp && !a.known
  {
    if !a.encodes || !a.connects then Raised
    else if e.email != "" && !a.looksUp then Raised
    else if e.email != "" && !a.known then Discarded
    else if a.inserts then Inserted
    else Raised
  }

  // ---------------------------------------------------------------------------
  // Shared state and the atomic operations on it
  // ---------------------------------------------------------------------------

  /** The audit table, the events logged as discarded orphans, the buffer and the flag. */
  datatype Shared = Shared(logged: seq<Event>, discarded: seq<Event>, buffer: seq<Event>, up: bool)

  function Persisted(s: Shared, e: Event, o: Outcome): Shared {
    match o
    case Inserted => s.(logged := s.logged + [e])
    case Discarded => s.(discarded := s.discarded + [e])
    case Raised => s
  }

  function Buffered(s: Shared, e: Event): Shared {
    s.(buffer := s.buffer + [e])
  }

  /** `list.remove`: drops the first equal element. */
  function RemoveFirst(b: seq<Event>, e: Event): (r: seq<Event>)
    ensures e in b ==> multiset(r) == multiset(b) - multiset{e}
    ensures e !in b ==> r == b
  {
    if b == [] then []
    else
      assert b == [b[0]] + b[1..];
      if b[0] == e then b[1..] else [b[0]] + RemoveFirst(b[1..], e)
  }

  function Taken(s: Shared, e: Event): Shared {
    s.(buffer := RemoveFirst(s.buffer, e))
  }

  // ---------------------------------------------------------------------------
  // The class
  // ---------------------------------------------------------------------------

  function WriteOneSpec(s: Shared, e: Event, a: Answer): Shared {
    if !s.up then Buffered(s, e)
    else if Persist(e, a) == Raised then Buffered(s.(up := false), e)
    else Persisted(s, e, Persist(e, a))
  }

  function WriteSpec(s: Shared, events: seq<Event>, answers: seq<Answer>): Shared
    requires |answers| == |events|
    decreases |events|
  {
    if events == [] then s
    else WriteSpec(WriteOneSpec(s, events[0], answers[0]), events[1..], answers[1..])
  }

  /** A flush pass in progress: the shared state and the two counters. */
  datatype Progress = Progress(shared: Shared, flushed: nat, failed: nat)

  function FlushOne(p: Progress, e: Event, a: Answer): Progress {
    if Persist(e, a) == Raised then Progress(p.shared.(up := false), p.flushed, p.failed + 1)
    else Progress(Taken(Persisted(p.shared, e, Persist(e, a)), e), p.flushed + 1, p.failed)
  }

  function FlushAll(p: Progress, pending: seq<Event>, answers: seq<Answer>): Progress
    requires |answers| == |pending|
    decreases |pending|
  {
    if pending == [] then p
    else FlushAll(FlushOne(p, pending[0], answers[0]), pending[1..], answers[1..])
  }

  lemma FlushAllStep(p: Progress, pending: seq<Event>, answers: seq<Answer>, i: nat)
    requires |answers| == |pending| && i < |pending|
    ensures FlushAll(p, pending[i..], answers[i..])
         == FlushAll(FlushOne(p, pending[i], answers[i]), pending[i + 1..], answers[i + 1..])
  {
    assert pending[i..][1..] == pending[i + 1..] && answers[i..][1..] == answers[i + 1..];
  }

  lemma FlushOneShared(p: Progress, e: Event, a: Answer)
    ensures
      var s, q := Persisted(p.shared, e, Persist(e, a)), FlushOne(p, e, a);
      if Persist(e, a) == Raised then q == Progress(s.(up := false), p.flushed, p.failed + 1)
      else q == Progress(s.(buffer := RemoveFirst(s.buffer, e)), p.flushed + 1, p.failed)
  {
  }

  function FlushEnded(p: Progress): Shared {
    if p.flushed > 0 then p.shared.(up := true) else p.shared
  }

  function FlushSpec(s: Shared, answers: seq<Answer>): Shared
    requires |answers| == |s.buffer|
  {
    FlushEnded(FlushAll(Progress(s, 0, 0), s.buffer, answers))
  }

  /** `AuditWriter`. `logged` and `discarded` are what it leaves in the database and the log. */
  class AuditWriter {
    var logged: seq<Event>
    var discarded: seq<Event>
    var buffer: seq<Event>
    var up: bool

    function View(): Shared
      reads this
    {
      Shared(logged, discarded, buffer, up)
    }

    constructor ()
      ensures View() == Shared([], [], [], true)
    {
      logged, discarded, buffer, up := [], [], [], true;
    }

    /** Returns whether the attempt raised. */
    method PersistToDb(e: Event, a: Answer) returns (raised: bool)
      modifies this
      ensures raised == (Persist(e, a) == Raised)
      ensures View() == Persisted(old(View()), e, Persist(e, a))
    {
      if !a.encodes || !a.connects {
        return true;
      }
      if e.email != "" {
        if !a.looksUp {
          return true;
        }
        if !a.known {
          discarded := discarded + [e];
          return false;
        }
      }
      if !a.inserts {
        return true;
      }
      logged := logged + [e];
      return false;
    }

    method Buffer(e: Event)
      modifies this`buffer
      ensures View() == Buffered(old(View()), e)
    {
      buffer := buffer + [e];
    }

    method WriteOne(e: Event, a: Answer)
      modifies this
      ensures View() == WriteOneSpec(old(View()), e, a)
    {
      if up {
        var raised := PersistToDb(e, a);
        if raised {
          up := false;
          Buffer(e);
        }
      } else {
        Buffer(e);
      }
    }

    method Write(events: seq<Event>, answers: seq<Answer>)
      requires |answers| == |events|
      modifies this
      ensures View() == WriteSpec(old(View()), events, answers)
    {
      for i := 0 to |events|
        invariant WriteSpec(View(), events[i..], answers[i..]) == WriteSpec(old(View()), events, answers)
      {
        assert events[i..][1..] == events[i + 1..] && answers[i..][1..] == answers[i + 1..];
        WriteOne(events[i], answers[i]);
      }
    }

    method AttemptFlush(answers: seq<Answer>)
      requires |answers| == |buffer|
      modifies this
      ensures View() == FlushSpec(old(View()), answers)
    {
      if buffer == [] {
        return;
      }
      var pending := buffer;
      assert pending[0..] == pending && answers[0..] == answers;
      var flushed, failed := 0, 0;
      ghost var passed := FlushAll(Progress(View(), 0, 0), pending, answers);
      for i := 0 to |pending|
        invariant FlushAll(Progress(View(), flushed, failed), pending[i..], answers[i..]) == passed
      {
        ghost var before := Progress(View(), flushed, failed);
        FlushAllStep(before, pending, answers, i);
        FlushOneShared(before, pending[i], answers[i]);
        var raised := PersistToDb(pending[i], answers[i]);
        if !raised {
          buffer := RemoveFirst(buffer, pending[i]);
          flushed := flushed + 1;
        } else {
          up := false;
          failed := failed + 1;
        }
      }
      if flushed > 0 {
        up := true;
      }
    }
  }

  // ---------------------------------------------------------------------------
  // Interleaved steps
  // ---------------------------------------------------------------------------

  /** Where a writer stands with the first event of its batch. */
  datatype Stage = Check | Insert | Down | Append

  datatype Writer = Writer(todo: seq<Event>, stage: Stage)

  /** The flush daemon. A pass holds its snapshot `pending` (what it has yet to finish), the
      events `kept` because their persist raised, and its success counter. */
  datatype Flusher =
    | Asleep
    | Pass(pending: seq<Event>, stage: FlushStage, kept: seq<Event>, flushed: nat)

  datatype FlushStage = Try | MarkDown | Take

  /** `late` are the events appended to the buffer since the last snapshot; `submitted` is
      every event ever handed to a writer. */
  datatype Sys = Sys(shared: Shared, writers: seq<Writer>, flusher: Flusher, late: seq<Event>,
                     submitted: multiset<Event>)

  datatype Action =
    | Submit(w: nat, batch: seq<Event>)
    | CheckFlag(w: nat)
    | WriterPersist(w: nat, a: Answer)
    | WriterDown(w: nat)
    | WriterAppend(w: nat)
    | Snapshot
    | FlushPersist(a: Answer)
    | FlushDown
    | FlushTake
    | FlushEnd

  ghost predicate WriterAt(s: Sys, w: nat, stage: Stage) {
    w < |s.writers| && s.writers[w].todo != [] && s.writers[w].stage == stage
  }

  ghost predicate FlusherAt(s: Sys, stage: FlushStage) {
    s.flusher.Pass? && s.flusher.pending != [] && s.flusher.stage == stage
  }

  ghost predicate Enabled(s: Sys, act: Action) {
    match act
    case Submit(w, batch) => w < |s.writers| && s.writers[w].todo == []
    case CheckFlag(w) => WriterAt(s, w, Check)
    case WriterPersist(w, a) => WriterAt(s, w, Insert)
    case WriterDown(w) => WriterAt(s, w, Down)
    case WriterAppend(w) => WriterAt(s, w, Append)
    case Snapshot => s.flusher.Asleep? && s.shared.buffer != []
    case FlushPersist(a) => FlusherAt(s, Try)
    case FlushDown => FlusherAt(s, MarkDown)
    case FlushTake => FlusherAt(s, Take)
    case FlushEnd => s.flusher.Pass? && s.flusher.pending == []
  }

  ghost function Moved(s: Sys, w: nat, stage: Stage): Sys
    requires w < |s.writers|
  {
    s.(writers := s.writers[w := s.writers[w].(stage := stage)])
  }

  /** The writer is done with its first event and looks at the next one. */
  ghost function Finished(s: Sys, w: nat): Sys
    requires w < |s.writers| && s.writers[w].todo != []
  {
    s.(writers := s.writers[w := Writer(s.writers[w].todo[1..], Check)])
  }

  ghost function Next(s: Sys, act: Action): Sys
    requires Enabled(s, act)
  {
    match act
    case Submit(w, batch) =>
      s.(writers := s.writers[w := Writer(batch, Check)], submitted := s.submitted + multiset(batch))
    case CheckFlag(w) => Moved(s, w, if s.shared.up then Insert else Append)
    case WriterPersist(w, a) =>
      var e := s.writers[w].todo[0];
      if Persist(e, a) == Raised then Moved(s, w, Down)
      else Finished(s.(shared := Persisted(s.shared, e, Persist(e, a))), w)
    case WriterDown(w) => Moved(s.(shared := s.shared.(up := false)), w, Append)
    case WriterAppend(w) =>
      var e := s.writers[w].todo[0];
      Finished(s.(shared := Buffered(s.shared, e), late := s.late + [e]), w)
    case Snapshot => s.(flusher := Pass(s.shared.buffer, Try, [], 0), late := [])
    case FlushPersist(a) =>
      var e := s.flusher.pending[0];
      s.(shared := Persisted(s.shared, e, Persist(e, a)),
         flusher := s.flusher.(stage := if Persist(e, a) == Raised then MarkDown else Take))
    case FlushDown =>
      var f := s.flusher;
      s.(shared := s.shared.(up := false),
         flusher := Pass(f.pending[1..], Try, f.kept + [f.pending[0]], f.flushed))
    case FlushTake =>
      var f := s.flusher;
      s.(shared := Taken(s.shared, f.pending[0]),
         flusher := Pass(f.pending[1..], Try, f.kept, f.flushed + 1))
    case FlushEnd =>
      s.(shared := if s.flusher.flushed > 0 then s.shared.(up := true) else s.shared, flusher := Asleep)
  }

  ghost function Start(n: nat): Sys {
    Sys(Shared([], [], [], true), seq(n, i => Writer([], Check)), Asleep, [], multiset{})
  }

  /** A run: every action is enabled where it is taken. */
  ghost predicate Runs(s: Sys, acts: seq<Action>)
    decreases |acts|
  {
    acts == [] || (Enabled(s, acts[0]) && Runs(Next(s, acts[0]), acts[1..]))
  }

  ghost function After(s: Sys, acts: seq<Action>): Sys
    requires Runs(s, acts)
    decreases |acts|
  {
    if acts == [] then s else After(Next(s, acts[0]), acts[1..])
  }

  // ---------------------------------------------------------------------------
  // Conservation
  // ---------------------------------------------------------------------------

  /** How often `e` stands in a list. */
  ghost function Count(t: seq<Event>, e: Event): nat {
    multiset(t)[e]
  }

  lemma CountAppend(t: seq<Event>, x: Event, e: Event)
    ensures Count(t + [x], e) == Count(t, e) + if x == e then 1 else 0
  {
  }

  lemma CountRest(t: seq<Event>, e: Event)
    requires t != []
    ensures Count(t[1..], e) == Count(t, e) - if t[0] == e then 1 else 0
  {
    assert t == [t[0]] + t[1..];
  }

  /** How often `e` stands in the writers' unfinished batches. */
  ghost function Held(ws: seq<Writer>, e: Event): nat {
    if ws == [] then 0 else Count(ws[0].todo, e) + Held(ws[1..], e)
  }

  lemma {:induction false} HeldUpdate(ws: seq<Writer>, i: nat, w: Writer, e: Event)
    requires i < |ws|
    ensures Held(ws[i := w], e) == Held(ws, e) - Count(ws[i].todo, e) + Count(w.todo, e)
  {
    if i == 0 {
      assert ws[0 := w][1..] == ws[1..];
    } else {
      HeldUpdate(ws[1..], i - 1, w, e);
      assert ws[i := w][1..] == ws[1..][i - 1 := w];
    }
  }

  lemma {:induction false} NoneHeld(ws: seq<Writer>, e: Event)
    requires forall i :: 0 <= i < |ws| ==> ws[i].todo == []
    ensures Held(ws, e) == 0
  {
    if ws != [] {
      NoneHeld(ws[1..], e);
    }
  }

  /** The flusher has persisted `e` but not yet removed it from the buffer. */
  ghost predicate InFlight(s: Sys, e: Event) {
    FlusherAt(s, Take) && s.flusher.pending[0] == e
  }

  /** Logged, discarded, buffered and held copies of `e` are the submitted ones, plus the one
      the flusher has in flight. */
  ghost predicate Balanced(s: Sys, e: Event) {
    Count(s.shared.logged, e) + Count(s.shared.discarded, e) + Count(s.shared.buffer, e) + Held(s.writers, e)
    == s.submitted[e] + if InFlight(s, e) then 1 else 0
  }

  /** During a pass the buffer is what the pass has yet to finish, what it kept, and what
      arrived since the snapshot. */
  ghost predicate Shaped(s: Sys, e: Event) {
    s.flusher.Pass? ==>
      Count(s.shared.buffer, e) == Count(s.flusher.pending, e) + Count(s.flusher.kept, e) + Count(s.late, e)
  }

  /** While nothing was kept it is exactly that, in order. */
  ghost predicate InOrder(s: Sys) {
    s.flusher.Pass? && s.flusher.kept == [] ==> s.shared.buffer == s.flusher.pending + s.late
  }

  /** A pass has something to do, to show or to keep: it never starts on an empty snapshot. */
  ghost predicate Occupied(s: Sys) {
    s.flusher.Pass? ==> s.flusher.flushed + |s.flusher.kept| + |s.flusher.pending| > 0
  }

  ghost predicate OrphansOnly(s: Sys) {
    forall e :: e in s.shared.discarded ==> e.email != ""
  }

  ghost predicate Inv(s: Sys) {
    && (forall e :: Balanced(s, e))
    && (forall e :: Shaped(s, e))
    && InOrder(s)
    && Occupied(s)
    && OrphansOnly(s)
  }

  predicate ByWriter(act: Action) {
    act.Submit? || act.CheckFlag? || act.WriterPersist? || act.WriterDown? || act.WriterAppend?
  }

  /** Copies of `e` in the shared books. */
  ghost function Booked(s: Shared, e: Event): nat {
    Count(s.logged, e) + Count(s.discarded, e) + Count(s.buffer, e)
  }

  /** An event a writer is done with is in the books once more. */
  lemma OneBooked(s: Shared, x: Event, o: Outcome, e: Event)
    ensures Booked(Buffered(s, x), e) == Booked(s, e) + if x == e then 1 else 0
    ensures o != Raised ==> Booked(Persisted(s, x, o), e) == Booked(s, e) + if x == e then 1 else 0
  {
    CountAppend(s.buffer, x, e);
    CountAppend(s.logged, x, e);
    CountAppend(s.discarded, x, e);
  }

  /** What a step of writer `act.w` does to the books, without looking at the others. */
  lemma WriterStepCounts(s: Sys, act: Action, e: Event)
    requires Enabled(s, act) && ByWriter(act)
    ensures
      var t := Next(s, act);
      && t.writers == s.writers[act.w := t.writers[act.w]] && t.flusher == s.flusher
      && Booked(t.shared, e) + Count(t.writers[act.w].todo, e) - t.submitted[e]
      == Booked(s.shared, e) + Count(s.writers[act.w].todo, e) - s.submitted[e]
  {
    match act {
      case Submit(_, _) =>
      case CheckFlag(_) =>
      case WriterDown(_) =>
      case WriterPersist(w, a) =>
        CountRest(s.writers[w].todo, e);
        OneBooked(s.shared, s.writers[w].todo[0], Persist(s.writers[w].todo[0], a), e);
      case WriterAppend(w) =>
        CountRest(s.writers[w].todo, e);
        OneBooked(s.shared, s.writers[w].todo[0], Raised, e);
    }
  }

  lemma WriterBalances(s: Sys, act: Action, e: Event)
    requires Balanced(s, e) && Enabled(s, act) && ByWriter(act)
    ensures Balanced(Next(s, act), e)
  {
    WriterStepCounts(s, act, e);
    HeldUpdate(s.writers, act.w, Next(s, act).writers[act.w], e);
  }

  /** The `if event in buffer` guard before the removal always holds. */
  lemma GuardNeverFails(s: Sys)
    requires FlusherAt(s, Take) && Shaped(s, s.flusher.pending[0])
    ensures s.flusher.pending[0] in s.shared.buffer
  {
    var e := s.flusher.pending[0];
    assert e in multiset(s.flusher.pending);
    assert e in multiset(s.shared.buffer);
  }

  lemma PersistBalances(s: Sys, a: Answer, e: Event)
    requires Balanced(s, e) && FlusherAt(s, Try)
    ensures Balanced(Next(s, FlushPersist(a)), e)
  {
    CountAppend(s.shared.logged, s.flusher.pending[0], e);
    CountAppend(s.shared.discarded, s.flusher.pending[0], e);
  }

  lemma TakeBalances(s: Sys, e: Event)
    requires Balanced(s, e) && FlusherAt(s, Take) && s.flusher.pending[0] in s.shared.buffer
    ensures Balanced(Next(s, FlushTake), e)
  {
  }

  lemma FlusherBalances(s: Sys, act: Action, e: Event)
    requires Balanced(s, e) && Enabled(s, act) && !ByWriter(act)
    requires act.FlushTake? ==> s.flusher.pending[0] in s.shared.buffer
    ensures Balanced(Next(s, act), e)
  {
    match act {
      case FlushPersist(a) => PersistBalances(s, a, e);
      case FlushTake => TakeBalances(s, e);
      case Snapshot =>
      case FlushDown =>
      case FlushEnd =>
    }
  }

  lemma StepKeepsShape(s: Sys, act: Action, e: Event)
    requires Shaped(s, e) && Enabled(s, act)
    requires act.FlushTake? ==> s.flusher.pending[0] in s.shared.buffer
    ensures Shaped(Next(s, act), e)
  {
    if act.FlushDown? || act.FlushTake? {
      CountRest(s.flusher.pending, e);
    }
  }

  lemma StepKeepsOrder(s: Sys, act: Action)
    requires InOrder(s) && Enabled(s, act)
    ensures InOrder(Next(s, act))
  {
    var t := Next(s, act);
    if act.WriterAppend? && s.flusher.Pass? {
      assert s.flusher.pending + s.late + [s.writers[act.w].todo[0]] == s.flusher.pending + t.late;
    } else if act.Snapshot? {
      assert t.flusher.pending + t.late == t.shared.buffer;
    } else if act.FlushTake? && s.flusher.kept == [] {
      assert s.shared.buffer[0] == s.flusher.pending[0];
      assert s.shared.buffer[1..] == s.flusher.pending[1..] + s.late;
    }
  }

  lemma StepKeepsOccupied(s: Sys, act: Action)
    requires Occupied(s) && Enabled(s, act)
    ensures Occupied(Next(s, act))
  {
  }

  lemma StepKeepsOrphans(s: Sys, act: Action)
    requires OrphansOnly(s) && Enabled(s, act)
    ensures OrphansOnly(Next(s, act))
  {
  }

  lemma StepInvariant(s: Sys, act: Action)
    requires Inv(s) && Enabled(s, act)
    ensures Inv(Next(s, act))
  {
    if act.FlushTake? {
      GuardNeverFails(s);
    }
    forall e
      ensures Balanced(Next(s, act), e) && Shaped(Next(s, act), e)
    {
      assert Balanced(s, e) && Shaped(s, e);
      if ByWriter(act) {
        WriterBalances(s, act, e);
      } else {
        FlusherBalances(s, act, e);
      }
      StepKeepsShape(s, act, e);
    }
    StepKeepsOrder(s, act);
    StepKeepsOccupied(s, act);
    StepKeepsOrphans(s, act);
  }

  lemma {:induction false} RunInvariant(s: Sys, acts: seq<Action>)
    requires Inv(s) && Runs(s, acts)
    ensures Inv(After(s, acts))
    decreases |acts|
  {
    if acts != [] {
      StepInvariant(s, acts[0]);
      RunInvariant(Next(s, acts[0]), acts[1..]);
    }
  }

  /** No event is lost or doubled, in any interleaving of any number of writers with the
      flusher: what is logged, discarded, buffered or in a writer's hands is what was
      submitted, plus at most the one event the flusher has persisted but not yet removed.
      Only events with an email id are ever discarded. */
  lemma NeverDrops(n: nat, acts: seq<Action>)
    requires Runs(Start(n), acts)
    ensures Inv(After(Start(n), acts))
  {
    forall e
      ensures Balanced(Start(n), e)
    {
      NoneHeld(Start(n).writers, e);
    }
    RunInvariant(Start(n), acts);
  }

  ghost predicate Quiescent(s: Sys) {
    s.flusher.Asleep? && forall i :: 0 <= i < |s.writers| ==> s.writers[i].todo == []
  }

  /** At rest the books balance exactly: nothing lost and nothing doubled. */
  lemma BalancedAtRest(n: nat, acts: seq<Action>)
    requires Runs(Start(n), acts) && Quiescent(After(Start(n), acts))
    ensures
      var s := After(Start(n), acts);
      multiset(s.shared.logged) + multiset(s.shared.discarded) + multiset(s.shared.buffer) == s.submitted
  {
    NeverDrops(n, acts);
    var s := After(Start(n), acts);
    var books := multiset(s.shared.logged) + multiset(s.shared.discarded) + multiset(s.shared.buffer);
    forall e
      ensures books[e] == s.submitted[e]
    {
      assert Balanced(s, e);
      NoneHeld(s.writers, e);
    }
  }

  /** When a pass ends, in any interleaving, what is left of its snapshot is what raised; if
      nothing raised, the buffer is exactly what arrived since the snapshot, in order, and the
      flag is up, whatever writers did to it meanwhile. The flag is raised by every pass that
      got an event through, and otherwise left alone. */
  lemma PassEnds(n: nat, acts: seq<Action>)
    requires Runs(Start(n), acts) && Enabled(After(Start(n), acts), FlushEnd)
    ensures
      var s := After(Start(n), acts);
      && multiset(s.shared.buffer) == multiset(s.flusher.kept) + multiset(s.late)
      && (s.flusher.kept == [] ==> s.shared.buffer == s.late && Next(s, FlushEnd).shared.up)
      && Next(s, FlushEnd).shared.up == (s.shared.up || s.flusher.flushed > 0)
  {
    NeverDrops(n, acts);
    var s := After(Start(n), acts);
    forall e
      ensures multiset(s.shared.buffer)[e] == (multiset(s.flusher.kept) + multiset(s.late))[e]
    {
      assert Shaped(s, e);
    }
    assert s.flusher.pending + s.late == s.late;
  }

  // ---------------------------------------------------------------------------
  // The class methods are runs of these steps
  // ---------------------------------------------------------------------------

  ghost function WriteOneActions(s: Shared, w: nat, e: Event, a: Answer): seq<Action> {
    if !s.up then [CheckFlag(w), WriterAppend(w)]
    else if Persist(e, a) == Raised then [CheckFlag(w), WriterPersist(w, a), WriterDown(w), WriterAppend(w)]
    else [CheckFlag(w), WriterPersist(w, a)]
  }

  lemma RunsStep(s: Sys, act: Action, rest: seq<Action>)
    requires Enabled(s, act) && Runs(Next(s, act), rest)
    ensures Runs(s, [act] + rest) && After(s, [act] + rest) == After(Next(s, act), rest)
  {
    assert ([act] + rest)[1..] == rest;
  }

  /** Undisturbed, the steps of one writer for one event are `_write_one`. */
  lemma WriteOneIsARun(s: Sys, w: nat, a: Answer)
    requires WriterAt(s, w, Check)
    ensures
      var e := s.writers[w].todo[0];
      var acts := WriteOneActions(s.shared, w, e, a);
      && Runs(s, acts)
      && After(s, acts).shared == WriteOneSpec(s.shared, e, a)
      && After(s, acts).writers == s.writers[w := Writer(s.writers[w].todo[1..], Check)]
  {
    var e := s.writers[w].todo[0];
    var s1 := Next(s, CheckFlag(w));
    if !s.shared.up {
      RunsStep(s1, WriterAppend(w), []);
      RunsStep(s, CheckFlag(w), [WriterAppend(w)]);
    } else {
      var s2 := Next(s1, WriterPersist(w, a));
      if Persist(e, a) == Raised {
        var s3 := Next(s2, WriterDown(w));
        RunsStep(s3, WriterAppend(w), []);
        RunsStep(s2, WriterDown(w), [WriterAppend(w)]);
        RunsStep(s1, WriterPersist(w, a), [WriterDown(w), WriterAppend(w)]);
        RunsStep(s, CheckFlag(w), [WriterPersist(w, a), WriterDown(w), WriterAppend(w)]);
      } else {
        RunsStep(s1, WriterPersist(w, a), []);
        RunsStep(s, CheckFlag(w), [WriterPersist(w, a)]);
      }
    }
  }

  ghost function PassActions(pending: seq<Event>, answers: seq<Answer>): seq<Action>
    requires |answers| == |pending|
  {
    if pending == [] then []
    else
      [FlushPersist(answers[0])] +
      ([if Persist(pending[0], answers[0]) == Raised then FlushDown else FlushTake] +
       PassActions(pending[1..], answers[1..]))
  }

  /** The two steps of the flusher for one event. */
  ghost function FlushTwice(s: Sys, a: Answer): Sys
    requires FlusherAt(s, Try)
  {
    var t := Next(s, FlushPersist(a));
    Next(t, if t.flusher.stage == MarkDown then FlushDown else FlushTake)
  }

  lemma FlushTwiceIsFlushOne(s: Sys, a: Answer, failed: nat)
    requires FlusherAt(s, Try)
    ensures
      var f, t, e := s.flusher, FlushTwice(s, a), s.flusher.pending[0];
      && t.flusher.Pass? && t.flusher.stage == Try && t.flusher.pending == f.pending[1..]
      && Progress(t.shared, t.flusher.flushed, if Persist(e, a) == Raised then failed + 1 else failed)
         == FlushOne(Progress(s.shared, f.flushed, failed), e, a)
  {
  }

  lemma FlushTwiceFirst(s: Sys, a: Answer, rest: seq<Action>)
    requires FlusherAt(s, Try) && Runs(FlushTwice(s, a), rest)
    ensures
      var acts := [FlushPersist(a)] + ([if Persist(s.flusher.pending[0], a) == Raised then FlushDown else FlushTake] + rest);
      Runs(s, acts) && After(s, acts) == After(FlushTwice(s, a), rest)
  {
    var act := if Persist(s.flusher.pending[0], a) == Raised then FlushDown else FlushTake;
    RunsStep(Next(s, FlushPersist(a)), act, rest);
    RunsStep(s, FlushPersist(a), [act] + rest);
  }

  /** Undisturbed, the steps of the flusher between snapshot and end are `_attempt_flush`. */
  lemma {:induction false} FlushIsARun(s: Sys, answers: seq<Answer>, failed: nat)
    requires s.flusher.Pass? && s.flusher.stage == Try && |answers| == |s.flusher.pending|
    ensures
      var acts := PassActions(s.flusher.pending, answers);
      var p := FlushAll(Progress(s.shared, s.flusher.flushed, failed), s.flusher.pending, answers);
      && Runs(s, acts)
      && Enabled(After(s, acts), FlushEnd)
      && Next(After(s, acts), FlushEnd).shared == FlushEnded(p)
    decreases |answers|
  {
    var f := s.flusher;
    if f.pending != [] {
      var raised := Persist(f.pending[0], answers[0]) == Raised;
      FlushTwiceIsFlushOne(s, answers[0], failed);
      FlushIsARun(FlushTwice(s, answers[0]), answers[1..], if raised then failed + 1 else failed);
      FlushTwiceFirst(s, answers[0], PassActions(f.pending[1..], answers[1..]));
    }
  }

  ghost predicate NothingRaises(events: seq<Event>, answers: seq<Answer>)
    requires |answers| == |events|
  {
    forall i :: 0 <= i < |answers| ==> Persist(events[i], answers[i]) != Raised
  }

  lemma {:induction false} NoneRaised(events: seq<Event>, answers: seq<Answer>)
    requires |answers| == |events| && NothingRaises(events, answers)
    ensures With(events, answers, Raised) == []
  {
    if events != [] {
      NoneRaised(events[1..], answers[1..]);
    }
  }

  /** Recovery: a pass in which nothing raises empties the buffer, raises the flag if there
      was anything to do, and writes or discards every buffered event once, in order. */
  lemma RecoveryEmptiesBuffer(s: Shared, answers: seq<Answer>)
    requires |answers| == |s.buffer| && NothingRaises(s.buffer, answers)
    ensures
      var t := FlushSpec(s, answers);
      && t.buffer == []
      && t.up == (s.up || s.buffer != [])
      && t.logged == s.logged + With(s.buffer, answers, Inserted)
      && t.discarded == s.discarded + With(s.buffer, answers, Discarded)
  {
    FlushLeavesFailures(s, answers);
    NoneRaised(s.buffer, answers);
  }

  lemma WithHead(t: seq<Event>, events: seq<Event>, answers: seq<Answer>, o: Outcome)
    requires |answers| == |events| && events != []
    ensures t + With(events, answers, o)
         == (t + if Persist(events[0], answers[0]) == o then [events[0]] else []) + With(events[1..], answers[1..], o)
  {
  }

  /** The events whose attempt has outcome `o`, in order. */
  ghost function With(events: seq<Event>, answers: seq<Answer>, o: Outcome): seq<Event>
    requires |answers| == |events|
  {
    if events == [] then []
    else (if Persist(events[0], answers[0]) == o then [events[0]] else []) + With(events[1..], answers[1..], o)
  }

  // ---------------------------------------------------------------------------
  // What a batch and a pass leave behind
  // ---------------------------------------------------------------------------

  /** Everything the writer has of the events it was given. */
  ghost function Books(s: Shared): multiset<Event> {
    multiset(s.logged) + multiset(s.discarded) + multiset(s.buffer)
  }

  lemma WriteOneKeeps(s: Shared, e: Event, a: Answer)
    ensures Books(WriteOneSpec(s, e, a)) == Books(s) + multiset{e}
  {
  }

  /** No event of a batch is lost or doubled, whatever happens to any of them. */
  lemma {:induction false} WriteKeepsAll(s: Shared, events: seq<Event>, answers: seq<Answer>)
    requires |answers| == |events|
    ensures Books(WriteSpec(s, events, answers)) == Books(s) + multiset(events)
    decreases |events|
  {
    if events != [] {
      WriteOneKeeps(s, events[0], answers[0]);
      WriteKeepsAll(WriteOneSpec(s, events[0], answers[0]), events[1..], answers[1..]);
      assert events == [events[0]] + events[1..];
    }
  }

  /** How many events at the head of a batch get through before the first that raises. */
  ghost function Clean(events: seq<Event>, answers: seq<Answer>): (k: nat)
    requires |answers| == |events|
    ensures k <= |events|
    ensures NothingRaises(events[..k], answers[..k])
    ensures k < |events| ==> Persist(events[k], answers[k]) == Raised
  {
    if events == [] || Persist(events[0], answers[0]) == Raised then 0 else 1 + Clean(events[1..], answers[1..])
  }

  /** With the flag down a batch is buffered whole, in order, and nothing is attempted. */
  lemma {:induction false} WriteWhenDown(s: Shared, events: seq<Event>, answers: seq<Answer>)
    requires |answers| == |events| && !s.up
    ensures WriteSpec(s, events, answers) == s.(buffer := s.buffer + events)
    decreases |events|
  {
    if events == [] {
      assert s.buffer + [] == s.buffer;
    } else {
      WriteWhenDown(Buffered(s, events[0]), events[1..], answers[1..]);
      assert s.buffer + [events[0]] + events[1..] == s.buffer + events;
    }
  }

  lemma HeadOfBatch(events: seq<Event>, answers: seq<Answer>, k: nat)
    requires |answers| == |events| && 0 < k <= |events|
    ensures events[1..][..k - 1] == events[..k][1..] && answers[1..][..k - 1] == answers[..k][1..]
    ensures events[1..][k - 1..] == events[k..]
  {
  }

  /** With the flag up the events before the first that raises are written or discarded, in
      order; that one and all behind it are buffered, in order; the flag stays up exactly if
      none raised. */
  lemma {:induction false} WriteSplits(s: Shared, events: seq<Event>, answers: seq<Answer>)
    requires |answers| == |events| && s.up
    ensures
      var k := Clean(events, answers);
      WriteSpec(s, events, answers) ==
      Shared(s.logged + With(events[..k], answers[..k], Inserted), s.discarded + With(events[..k], answers[..k], Discarded),
             s.buffer + events[k..], k == |events|)
    decreases |events|
  {
    var k := Clean(events, answers);
    if events == [] {
      assert s.buffer + [] == s.buffer && s.logged + [] == s.logged && s.discarded + [] == s.discarded;
    } else if k == 0 {
      WriteWhenDown(Buffered(s.(up := false), events[0]), events[1..], answers[1..]);
      assert s.buffer + [events[0]] + events[1..] == s.buffer + events[0..];
      assert s.logged + [] == s.logged && s.discarded + [] == s.discarded;
    } else {
      var s1 := Persisted(s, events[0], Persist(events[0], answers[0]));
      WriteSplits(s1, events[1..], answers[1..]);
      HeadOfBatch(events, answers, k);
      WithHead(s.logged, events[..k], answers[..k], Inserted);
      WithHead(s.discarded, events[..k], answers[..k], Discarded);
      assert s.logged + [] == s.logged && s.discarded + [] == s.discarded;
    }
  }

  lemma WithCount(events: seq<Event>, answers: seq<Answer>, o: Outcome)
    requires |answers| == |events| && events != []
    ensures multiset(With(events, answers, o)) ==
            (if Persist(events[0], answers[0]) == o then multiset{events[0]} else multiset{}) +
            multiset(With(events[1..], answers[1..], o))
  {
  }

  /** A pass over `pending` writes or discards what gets through once, in order, and counts it. */
  lemma {:induction false} PassLogs(p: Progress, pending: seq<Event>, answers: seq<Answer>)
    requires |answers| == |pending|
    ensures
      var q := FlushAll(p, pending, answers);
      && q.shared.logged == p.shared.logged + With(pending, answers, Inserted)
      && q.shared.discarded == p.shared.discarded + With(pending, answers, Discarded)
    decreases |pending|
  {
    if pending == [] {
      assert p.shared.logged + [] == p.shared.logged && p.shared.discarded + [] == p.shared.discarded;
    } else {
      PassLogs(FlushOne(p, pending[0], answers[0]), pending[1..], answers[1..]);
      WithHead(p.shared.logged, pending, answers, Inserted);
      WithHead(p.shared.discarded, pending, answers, Discarded);
      assert p.shared.logged + [] == p.shared.logged && p.shared.discarded + [] == p.shared.discarded;
    }
  }

  lemma {:induction false} PassCounts(p: Progress, pending: seq<Event>, answers: seq<Answer>)
    requires |answers| == |pending|
    ensures
      var q := FlushAll(p, pending, answers);
      && q.failed == p.failed + |With(pending, answers, Raised)|
      && q.flushed + q.failed == p.flushed + p.failed + |pending|
    decreases |pending|
  {
    if pending != [] {
      PassCounts(FlushOne(p, pending[0], answers[0]), pending[1..], answers[1..]);
    }
  }

  lemma FlushOneBuffer(p: Progress, pending: seq<Event>, a: Answer, rest: multiset<Event>)
    requires pending != [] && multiset(p.shared.buffer) == multiset(pending) + rest
    ensures multiset(FlushOne(p, pending[0], a).shared.buffer) ==
            multiset(pending[1..]) + (rest + if Persist(pending[0], a) == Raised then multiset{pending[0]} else multiset{})
  {
    var e := pending[0];
    assert pending == [e] + pending[1..];
    assert e in multiset(p.shared.buffer);
  }

  /** The buffer keeps what was not in the snapshot and what raised. */
  lemma {:induction false} PassKeeps(p: Progress, pending: seq<Event>, answers: seq<Answer>, rest: multiset<Event>)
    requires |answers| == |pending| && multiset(p.shared.buffer) == multiset(pending) + rest
    ensures multiset(FlushAll(p, pending, answers).shared.buffer) == multiset(With(pending, answers, Raised)) + rest
    decreases |pending|
  {
    if pending != [] {
      var more := if Persist(pending[0], answers[0]) == Raised then multiset{pending[0]} else multiset{};
      FlushOneBuffer(p, pending, answers[0], rest);
      PassKeeps(FlushOne(p, pending[0], answers[0]), pending[1..], answers[1..], rest + more);
      WithCount(pending, answers, Raised);
    }
  }

  /** The flag during a pass: any raise lowers it, and nothing raises it before the end. */
  lemma {:induction false} PassFlag(p: Progress, pending: seq<Event>, answers: seq<Answer>)
    requires |answers| == |pending|
    ensures FlushAll(p, pending, answers).shared.up == (p.shared.up && With(pending, answers, Raised) == [])
    decreases |pending|
  {
    if pending != [] {
      PassFlag(FlushOne(p, pending[0], answers[0]), pending[1..], answers[1..]);
    }
  }

  /** A whole pass, undisturbed, however its attempts end: what gets through is written or
      discarded once, in order, the buffer keeps exactly the events that raised, and after a
      pass with something to do the flag says whether anything got through. */
  lemma FlushLeavesFailures(s: Shared, answers: seq<Answer>)
    requires |answers| == |s.buffer|
    ensures
      var t := FlushSpec(s, answers);
      && t.logged == s.logged + With(s.buffer, answers, Inserted)
      && t.discarded == s.discarded + With(s.buffer, answers, Discarded)
      && multiset(t.buffer) == multiset(With(s.buffer, answers, Raised))
      && t.up == (if s.buffer == [] then s.up else |With(s.buffer, answers, Raised)| < |s.buffer|)
  {
    PassLogs(Progress(s, 0, 0), s.buffer, answers);
    PassCounts(Progress(s, 0, 0), s.buffer, answers);
    PassKeeps(Progress(s, 0, 0), s.buffer, answers, multiset{});
    PassFlag(Progress(s, 0, 0), s.buffer, answers);
  }

  lemma {:induction false} OutcomeCounts(events: seq<Event>, answers: seq<Answer>, e: Event)
    requires |answers| == |events|
    ensures Count(With(events, answers, Inserted), e) + Count(With(events, answers, Discarded), e) +
            Count(With(events, answers, Raised), e) == Count(events, e)
  {
    if events != [] {
      OutcomeCounts(events[1..], answers[1..], e);
      CountRest(events, e);
      WithCount(events, answers, Inserted);
      WithCount(events, answers, Discarded);
      WithCount(events, answers, Raised);
    }
  }

  /** The three outcomes split the events. */
  lemma OutcomesSplit(events: seq<Event>, answers: seq<Answer>)
    requires |answers| == |events|
    ensures multiset(With(events, answers, Inserted)) + multiset(With(events, answers, Discarded)) +
            multiset(With(events, answers, Raised)) == multiset(events)
  {
    var all := multiset(With(events, answers, Inserted)) + multiset(With(events, answers, Discarded)) +
               multiset(With(events, answers, Raised));
    forall e
      ensures all[e] == multiset(events)[e]
    {
      OutcomeCounts(events, answers, e);
    }
  }

  // --- a whole batch as steps -------------------------------------------------

  lemma HeadFirst(a: seq<Action>, b: seq<Action>)
    requires a != []
    ensures [a[0]] + (a[1..] + b) == a + b
  {
  }

  lemma {:induction false} RunsConcat(s: Sys, a: seq<Action>, b: seq<Action>)
    requires Runs(s, a) && Runs(After(s, a), b)
    ensures Runs(s, a + b) && After(s, a + b) == After(After(s, a), b)
    decreases |a|
  {
    if a == [] {
      assert a + b == b;
    } else {
      RunsConcat(Next(s, a[0]), a[1..], b);
      RunsStep(s, a[0], a[1..] + b);
      HeadFirst(a, b);
    }
  }

  /** Undisturbed, the steps of one writer for its batch are `write`. */
  lemma {:induction false} WriteIsARun(s: Sys, w: nat, answers: seq<Answer>) returns (acts: seq<Action>)
    requires w < |s.writers| && s.writers[w].stage == Check && |answers| == |s.writers[w].todo|
    ensures Runs(s, acts) && After(s, acts).shared == WriteSpec(s.shared, s.writers[w].todo, answers)
    ensures After(s, acts).writers == s.writers[w := Writer([], Check)]
    decreases |answers|
  {
    if s.writers[w].todo == [] {
      acts := [];
    } else {
      var first := WriteOneActions(s.shared, w, s.writers[w].todo[0], answers[0]);
      WriteOneIsARun(s, w, answers[0]);
      var rest := WriteIsARun(After(s, first), w, answers[1..]);
      RunsConcat(s, first, rest);
      acts := first + rest;
    }
  }
}
