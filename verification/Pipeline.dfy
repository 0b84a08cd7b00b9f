/** The agent pipeline: state reducers (state/shared_state.py) and the graph over them
    (agents/orchestrator.py). A run is a sequence of supersteps: the nodes scheduled together
    read one snapshot, their updates are folded in by the reducers in any order, and a node
    runs once in the next superstep if any of its in-edges fired. */
module Pipeline {

  datatype Option<T> = None | Some(value: T)

  datatype Event = Event(kind: string, agent: string, payload: string)

  // ---------------------------------------------------------------------------
  // Reducers
  // ---------------------------------------------------------------------------

  function MergeDicts(a: map<string, string>, b: map<string, string>): map<string, string> {
    a + b
  }

  /** Both `merge_datetime` and `merge_str`: the first value that is there. */
  function MergeFirst<T>(a: Option<T>, b: Option<T>): Option<T> {
    if a.Some? then a else b
  }

  function MergeBool(a: bool, b: bool): bool {
    a || b
  }

  /** A key without a reducer takes the written value. */
  function Overwrite<T>(a: T, b: Option<T>): T {
    if b.Some? then b.value else a
  }

  /** The keys the graph's behaviour depends on. */
  datatype State = State(statuses: map<string, string>, step: Option<string>, error: Option<string>,
                         deadline: Option<int>, timer: bool, alert80: bool, escalated: bool,
                         events: seq<Event>, low: bool, retries: nat)

  /** What a node returns; an absent reduced key is the identity of its reducer. */
  datatype Update = Update(statuses: map<string, string>, step: Option<string>, error: Option<string>,
                           deadline: Option<int>, timer: bool, alert80: bool, escalated: bool,
                           events: seq<Event>, low: Option<bool>, retries: Option<nat>)

  const NOTHING := Update(map[], None, None, None, false, false, false, [], None, None)

  function Apply(s: State, u: Update): State {
    State(MergeDicts(s.statuses, u.statuses), MergeFirst(s.step, u.step), MergeFirst(s.error, u.error),
          MergeFirst(s.deadline, u.deadline), MergeBool(s.timer, u.timer), MergeBool(s.alert80, u.alert80),
          MergeBool(s.escalated, u.escalated), s.events + u.events, Overwrite(s.low, u.low), Overwrite(s.retries, u.retries))
  }

  function ApplyAll(s: State, us: seq<Update>): State
    decreases |us|
  {
    if us == [] then s else ApplyAll(Apply(s, us[0]), us[1..])
  }

  // ---------------------------------------------------------------------------
  // Nodes
  // ---------------------------------------------------------------------------

  datatype Node = Intake | Classification | ApplyLabel | Routing | Sla | Response | Audit | HumanReview | DeadLetter

  datatype Classified =
    | EmptyBody(why: string)
    | Failed(why: string)
    | Done(low: bool, escalated: bool, deadline: int)

  /** What the environment decides in one run: what `current_step` holds when intake runs (the
      value handed in, or an empty string the graph library put there before), whether intake
      can normalise the email, how classification ends, the default deadline of the SLA node,
      and the events each emitting node puts in the queue. */
  datatype World = World(step: string, intakeError: Option<string>, classified: Classified, slaDefault: Option<int>,
                         emits: Node -> seq<Event>)

  function WithStatus(s: State, key: string, value: string): Update {
    NOTHING.(statuses := s.statuses[key := value])
  }

  /** What a node returns for the snapshot `s`. */
  function Returns(n: Node, s: State, w: World): Update {
    match n
    case Intake =>
      if w.intakeError.Some? then NOTHING.(error := w.intakeError, retries := Some(s.retries + 1))
      else WithStatus(s, "AG-01", "completed").(step := Some("classification"), events := w.emits(Intake))
    case Classification =>
      (match w.classified
       case EmptyBody(why) =>
         WithStatus(s, "AG-02", "empty_body").(error := Some(why), low := Some(true), step := Some("human_review"),
                                              retries := Some(s.retries + 1), events := w.emits(Classification))
       case Failed(why) =>
         WithStatus(s, "AG-02", "failed").(error := Some(why), retries := Some(s.retries + 1),
                                          events := w.emits(Classification))
       case Done(low, escalated, deadline) =>
         WithStatus(s, "AG-02", "completed").(low := Some(low), escalated := escalated, deadline := Some(deadline),
                                             step := Some(if low then "human_review" else "routing"),
                                             events := w.emits(Classification)))
    case ApplyLabel =>
      WithStatus(s, "AG-00 (labeler)", "completed").(step := Some(if s.low then "human_review" else "routing"))
    case Routing => WithStatus(s, "AG-03", "completed").(step := Some("response"), events := w.emits(Routing))
    case Sla =>
      WithStatus(s, "AG-05", "running").(deadline := if s.deadline.Some? then s.deadline else w.slaDefault,
                                        timer := true, events := w.emits(Sla))
    case Response => WithStatus(s, "AG-04", "completed").(step := Some("audit"))
    case Audit => NOTHING
    case HumanReview => WithStatus(s, "AG-00", "awaiting_human").(step := Some("human_review"))
    case DeadLetter => WithStatus(s, "AG-00", "dead_letter").(step := Some("dead_letter"))
  }

  /** The other keys a node may write; they have no reducer. */
  function Plain(n: Node): set<string> {
    match n
    case Intake => {"raw_email", "parsed_email", "email_id", "email_text", "attachment_paths", "ack_sent",
                    "case_reference", "tenant_id", "domain_config", "retry_count"}
    case Classification => {"classification_result", "confidence", "sentiment_score", "low_confidence_flag",
                            "escalation_flag", "global_sla_deadline", "retry_count"}
    case Routing => {"routing_matrix", "routing_decision", "assignment_id"}
    case Sla => {"elapsed_time"}
    case Response => {"draft"}
    case Audit => {"last_flush_time", "write_buffer"}
    case ApplyLabel => {}
    case HumanReview => {}
    case DeadLetter => {}
  }

  // ---------------------------------------------------------------------------
  // The graph
  // ---------------------------------------------------------------------------

  predicate ToDeadLetter(s: State) {
    s.error.Some? && s.error.value != "" && s.retries >= 3
  }

  /** The edges of a node, decided on the state after its superstep. */
  function Targets(n: Node, s: State): set<Node> {
    match n
    case Intake => if ToDeadLetter(s) then {DeadLetter} else {Classification, Sla}
    case Classification => {ApplyLabel}
    case ApplyLabel => if s.low then {HumanReview} else {Routing}
    case Routing => {Response}
    case Sla => {Response}
    case Response => {Audit}
    case Audit => {}
    case HumanReview => {}
    case DeadLetter => {}
  }

  /** One superstep: the nodes, in the order their updates are folded in, and the snapshot. */
  datatype Frame = Frame(front: seq<Node>, state: State)

  function Updates(f: Frame, w: World): seq<Update> {
    seq(|f.front|, i requires 0 <= i < |f.front| => Returns(f.front[i], f.state, w))
  }

  function Result(f: Frame, w: World): State {
    ApplyAll(f.state, Updates(f, w))
  }

  ghost predicate Fired(front: seq<Node>, s: State, m: Node) {
    exists i :: 0 <= i < |front| && m in Targets(front[i], s)
  }

  ghost predicate Distinct(front: seq<Node>) {
    forall i, j :: 0 <= i < j < |front| ==> front[i] != front[j]
  }

  /** `g` follows `f`: its nodes are exactly those an edge fired for, once each, in any order. */
  ghost predicate Follows(f: Frame, w: World, g: Frame) {
    && g.state == Result(f, w)
    && Distinct(g.front)
    && forall m :: m in g.front <==> Fired(f.front, g.state, m)
  }

  ghost predicate Run(t: seq<Frame>, w: World) {
    && t != [] && t[0].front == [Intake]
    && (forall i :: 0 <= i < |t| ==> t[i].front != [])
    && (forall i :: 0 <= i < |t| - 1 ==> Follows(t[i], w, t[i + 1]))
  }

  /** The run has ended: no edge fires after its last superstep. */
  ghost predicate Complete(t: seq<Frame>, w: World) {
    Run(t, w) && Quiet(t[|t| - 1].front, Final(t, w))
  }

  ghost predicate Quiet(front: seq<Node>, s: State) {
    forall m :: !Fired(front, s, m)
  }

  function Final(t: seq<Frame>, w: World): State
    requires t != []
  {
    Result(t[|t| - 1], w)
  }

  // ---------------------------------------------------------------------------
  // Termination
  // ---------------------------------------------------------------------------

  function Rank(n: Node): nat {
    match n
    case Intake => 0
    case Classification => 1
    case Sla => 1
    case DeadLetter => 1
    case ApplyLabel => 2
    case Routing => 3
    case HumanReview => 3
    case Response => 4
    case Audit => 5
  }

  lemma {:induction false} RanksRise(t: seq<Frame>, w: World, i: nat)
    requires Run(t, w) && i < |t|
    ensures forall n :: n in t[i].front ==> Rank(n) >= i
  {
    if i > 0 {
      RanksRise(t, w, i - 1);
      assert Follows(t[i - 1], w, t[i]);
      forall n | n in t[i].front
        ensures Rank(n) >= i
      {
        assert Fired(t[i - 1].front, t[i].state, n);
        var k :| 0 <= k < |t[i - 1].front| && n in Targets(t[i - 1].front[k], t[i].state);
        assert t[i - 1].front[k] in t[i - 1].front;
      }
    }
  }

  /** Every edge climbs in rank, so every run ends after at most six supersteps. */
  lemma RunsEnd(t: seq<Frame>, w: World)
    requires Run(t, w)
    ensures |t| <= 6
  {
    RanksRise(t, w, |t| - 1);
    assert t[|t| - 1].front[0] in t[|t| - 1].front;
  }

  const NODES := [Intake, Classification, ApplyLabel, Routing, Sla, Response, Audit, HumanReview, DeadLetter]

  /** The nodes an edge fired for, among the first `k`. */
  ghost function Scheduled(front: seq<Node>, s: State, k: nat): (r: seq<Node>)
    requires k <= |NODES|
    ensures Distinct(r) && forall m :: m in r <==> m in NODES[..k] && Fired(front, s, m)
  {
    if k == 0 then []
    else
      var r := Scheduled(front, s, k - 1);
      assert NODES[..k] == NODES[..k - 1] + [NODES[k - 1]];
      if Fired(front, s, NODES[k - 1]) then r + [NODES[k - 1]] else r
  }

  lemma EveryNodeIsListed(m: Node)
    ensures m in NODES[..|NODES|]
  {
    var i := match m
      case Intake => 0 case Classification => 1 case ApplyLabel => 2 case Routing => 3 case Sla => 4
      case Response => 5 case Audit => 6 case HumanReview => 7 case DeadLetter => 8;
    assert NODES[..|NODES|][i] == m;
  }

  /** The next superstep, unless no edge fires. */
  lemma RunGoesOn(t: seq<Frame>, w: World) returns (g: Frame)
    requires Run(t, w) && !Complete(t, w)
    ensures Run(t + [g], w)
  {
    var f, s := t[|t| - 1], Final(t, w);
    g := Frame(Scheduled(f.front, s, |NODES|), s);
    forall m
      ensures m in g.front <==> Fired(f.front, s, m)
    {
      EveryNodeIsListed(m);
    }
    assert Follows(f, w, g);
  }

  /** Every run can be continued until it ends, so the results about complete runs are about
      every run that is left to finish. */
  lemma {:induction false} EveryRunCompletes(t: seq<Frame>, w: World) returns (whole: seq<Frame>)
    requires Run(t, w)
    ensures Complete(whole, w) && t <= whole
    decreases 6 - |t|
  {
    RunsEnd(t, w);
    if Complete(t, w) {
      whole := t;
    } else {
      var g := RunGoesOn(t, w);
      RunsEnd(t + [g], w);
      whole := EveryRunCompletes(t + [g], w);
    }
  }

  // ---------------------------------------------------------------------------
  // The shape of a run
  // ---------------------------------------------------------------------------

  ghost predicate Is(front: seq<Node>, ns: set<Node>) {
    Distinct(front) && forall m :: m in front <==> m in ns
  }

  ghost function TargetsOf(ns: set<Node>, s: State): set<Node> {
    set n, m | n in ns && m in Targets(n, s) :: m
  }

  /** The edges that fire after a superstep are those of its set of nodes. */
  lemma FiredIffTarget(front: seq<Node>, ns: set<Node>, s: State, m: Node)
    requires Is(front, ns)
    ensures Fired(front, s, m) <==> m in TargetsOf(ns, s)
  {
    if m in TargetsOf(ns, s) {
      var n :| n in ns && m in Targets(n, s);
      assert n in front;
    }
    if Fired(front, s, m) {
      var k :| 0 <= k < |front| && m in Targets(front[k], s);
      assert front[k] in front;
    }
  }

  lemma NextFront(f: Frame, w: World, g: Frame, ns: set<Node>)
    requires Is(f.front, ns) && Follows(f, w, g)
    ensures Is(g.front, TargetsOf(ns, g.state))
  {
    forall m
      ensures m in g.front <==> m in TargetsOf(ns, g.state)
    {
      FiredIffTarget(f.front, ns, g.state, m);
    }
  }

  lemma EndsIfNoTargets(t: seq<Frame>, w: World, i: nat, ns: set<Node>)
    requires Run(t, w) && i < |t| && Is(t[i].front, ns)
    requires TargetsOf(ns, Result(t[i], w)) == {}
    ensures |t| == i + 1
  {
    if i + 1 < |t| {
      var m := t[i + 1].front[0];
      assert m in t[i + 1].front && Follows(t[i], w, t[i + 1]);
      FiredIffTarget(t[i].front, ns, t[i + 1].state, m);
    }
  }

  lemma GoesOnIfTargets(t: seq<Frame>, w: World, i: nat, ns: set<Node>, m: Node)
    requires Complete(t, w) && i < |t| && Is(t[i].front, ns) && m in TargetsOf(ns, Result(t[i], w))
    ensures i + 1 < |t| && Follows(t[i], w, t[i + 1]) && Is(t[i + 1].front, TargetsOf(ns, t[i + 1].state))
  {
    if i + 1 < |t| {
      NextFront(t[i], w, t[i + 1], ns);
    } else {
      FiredIffTarget(t[i].front, ns, Result(t[i], w), m);
    }
  }

  /** How a run that intake does not send to dead letter unfolds. Labelling comes before, and
      every run takes, exactly one of routing and human review; the audit node runs in the
      fourth superstep and, after routing, once more at the end. */
  ghost predicate Shape(t: seq<Frame>) {
    && |t| >= 4
    && Is(t[0].front, {Intake}) && Is(t[1].front, {Classification, Sla}) && Is(t[2].front, {ApplyLabel, Response})
    && if t[3].state.low then |t| == 4 && Is(t[3].front, {HumanReview, Audit})
       else |t| == 6 && Is(t[3].front, {Routing, Audit}) && Is(t[4].front, {Response}) && Is(t[5].front, {Audit})
  }

  lemma TargetsOfTwo(a: Node, b: Node, s: State)
    ensures TargetsOf({a, b}, s) == Targets(a, s) + Targets(b, s)
  {
    forall m
      ensures m in TargetsOf({a, b}, s) <==> m in Targets(a, s) + Targets(b, s)
    {
      if m in Targets(a, s) {
        assert a in {a, b};
      }
      if m in Targets(b, s) {
        assert b in {a, b};
      }
    }
  }

  lemma TargetsOfOne(a: Node, s: State)
    ensures TargetsOf({a}, s) == Targets(a, s)
  {
    TargetsOfTwo(a, a, s);
    assert {a, a} == {a};
  }

  /** The superstep after one of two nodes, when some edge fires. */
  lemma AfterPair(t: seq<Frame>, w: World, i: nat, a: Node, b: Node, m: Node)
    requires Complete(t, w) && i < |t| && Is(t[i].front, {a, b})
    requires m in Targets(a, Result(t[i], w)) + Targets(b, Result(t[i], w))
    ensures i + 1 < |t| && t[i + 1].state == Result(t[i], w)
    ensures Is(t[i + 1].front, Targets(a, t[i + 1].state) + Targets(b, t[i + 1].state))
  {
    TargetsOfTwo(a, b, Result(t[i], w));
    GoesOnIfTargets(t, w, i, {a, b}, m);
  }

  lemma IntakeFront(t: seq<Frame>, w: World)
    requires Run(t, w)
    ensures Is(t[0].front, {Intake})
  {
  }

  lemma FirstFronts(t: seq<Frame>, w: World)
    requires Complete(t, w) && !ToDeadLetter(Result(t[0], w))
    ensures |t| >= 4
    ensures Is(t[0].front, {Intake}) && Is(t[1].front, {Classification, Sla}) && Is(t[2].front, {ApplyLabel, Response})
    ensures Is(t[3].front, if t[3].state.low then {HumanReview, Audit} else {Routing, Audit})
  {
    IntakeFront(t, w);
    assert {Intake, Intake} == {Intake};
    AfterPair(t, w, 0, Intake, Intake, Sla);
    AfterPair(t, w, 1, Classification, Sla, Response);
    AfterPair(t, w, 2, ApplyLabel, Response, Audit);
  }

  lemma ReviewEnds(t: seq<Frame>, w: World)
    requires Complete(t, w) && |t| >= 4 && Is(t[3].front, {HumanReview, Audit})
    ensures |t| == 4
  {
    TargetsOfTwo(HumanReview, Audit, Result(t[3], w));
    EndsIfNoTargets(t, w, 3, {HumanReview, Audit});
  }

  lemma RoutingAnswers(t: seq<Frame>, w: World)
    requires Complete(t, w) && |t| >= 4 && Is(t[3].front, {Routing, Audit})
    ensures |t| >= 5 && Is(t[4].front, {Response})
  {
    TargetsOfTwo(Routing, Audit, Result(t[3], w));
    GoesOnIfTargets(t, w, 3, {Routing, Audit}, Response);
  }

  lemma AnswerEnds(t: seq<Frame>, w: World)
    requires Complete(t, w) && |t| >= 5 && Is(t[4].front, {Response})
    ensures |t| == 6 && Is(t[5].front, {Audit})
  {
    TargetsOfOne(Response, Result(t[4], w));
    GoesOnIfTargets(t, w, 4, {Response}, Audit);
    TargetsOfOne(Audit, Result(t[5], w));
    EndsIfNoTargets(t, w, 5, {Audit});
  }

  /** Every complete run that intake does not send to dead letter has this shape. */
  lemma RunsHaveThisShape(t: seq<Frame>, w: World)
    requires Complete(t, w) && !ToDeadLetter(Result(t[0], w))
    ensures Shape(t)
  {
    FirstFronts(t, w);
    if t[3].state.low {
      ReviewEnds(t, w);
    } else {
      RoutingAnswers(t, w);
      AnswerEnds(t, w);
    }
  }

  // ---------------------------------------------------------------------------
  // Folding
  // ---------------------------------------------------------------------------

  lemma FoldOfOne(s: State, u: Update)
    ensures ApplyAll(s, [u]) == Apply(s, u)
  {
    assert [u][1..] == [];
  }

  lemma FoldOfTwo(s: State, u: Update, v: Update)
    ensures ApplyAll(s, [u, v]) == Apply(Apply(s, u), v)
  {
    assert [u, v][1..] == [v];
    FoldOfOne(Apply(s, u), v);
  }

  ghost function Elems(front: seq<Node>): set<Node> {
    set n | n in front
  }

  lemma {:induction false} DistinctCount(front: seq<Node>)
    requires Distinct(front)
    ensures |Elems(front)| == |front|
  {
    if front != [] {
      var init := front[..|front| - 1];
      DistinctCount(init);
      assert Elems(front) == Elems(init) + {front[|front| - 1]};
    }
  }

  lemma ResultOfOne(f: Frame, w: World, a: Node)
    requires Is(f.front, {a})
    ensures Result(f, w) == Apply(f.state, Returns(a, f.state, w))
  {
    DistinctCount(f.front);
    assert Elems(f.front) == {a};
    assert f.front[0] in f.front;
    assert Updates(f, w) == [Returns(a, f.state, w)];
    FoldOfOne(f.state, Returns(a, f.state, w));
  }

  lemma TwoOrders(front: seq<Node>, a: Node, b: Node)
    requires Is(front, {a, b}) && a != b
    ensures front == [a, b] || front == [b, a]
  {
    DistinctCount(front);
    assert Elems(front) == {a, b};
    assert front[0] in front && front[1] in front;
  }

  /** Two nodes that share a superstep are folded in one of two orders. */
  lemma ResultOfTwo(f: Frame, w: World, a: Node, b: Node)
    requires Is(f.front, {a, b}) && a != b
    ensures
      var u, v := Returns(a, f.state, w), Returns(b, f.state, w);
      Result(f, w) == Apply(Apply(f.state, u), v) || Result(f, w) == Apply(Apply(f.state, v), u)
  {
    var u, v := Returns(a, f.state, w), Returns(b, f.state, w);
    TwoOrders(f.front, a, b);
    FoldOfTwo(f.state, u, v);
    FoldOfTwo(f.state, v, u);
    assert Updates(f, w) == if f.front == [a, b] then [u, v] else [v, u];
  }

  lemma MergedStatuses(m: map<string, string>, j: string, x: string, k: string, y: string)
    requires j != k && (k in m ==> m[k] == y) && (j in m ==> m[j] == x)
    ensures m + m[j := x] + m[k := y] == m[j := x][k := y]
  {
  }

  /** Two nodes that read the same snapshot, each adding its own status to it: either order
      gives the same statuses, flags and events as multisets, and both statuses survive,
      because neither node overwrites an older value of its key. */
  lemma ParallelMergeIsConfluent(s: State, u: Update, v: Update, j: string, x: string, k: string, y: string)
    requires u.statuses == s.statuses[j := x] && v.statuses == s.statuses[k := y] && j != k
    requires j in s.statuses ==> s.statuses[j] == x
    requires k in s.statuses ==> s.statuses[k] == y
    ensures
      var uv, vu := Apply(Apply(s, u), v), Apply(Apply(s, v), u);
      && uv.statuses == vu.statuses == s.statuses[j := x][k := y]
      && uv.timer == vu.timer && uv.alert80 == vu.alert80 && uv.escalated == vu.escalated
      && multiset(uv.events) == multiset(vu.events)
  {
    MergedStatuses(s.statuses, j, x, k, y);
    MergedStatuses(s.statuses, k, y, j, x);
    assert s.statuses[j := x][k := y] == s.statuses[k := y][j := x];
    var uv, vu := Apply(Apply(s, u), v), Apply(Apply(s, v), u);
    assert multiset(uv.events) == multiset(s.events) + multiset(u.events) + multiset(v.events);
    assert multiset(vu.events) == multiset(s.events) + multiset(v.events) + multiset(u.events);
  }

  /** Exactly when: the status folded in first survives iff the snapshot did not hold another
      value for its key. */
  lemma StatusSurvivesIffFresh(s: State, u: Update, v: Update, j: string, x: string, k: string, y: string)
    requires u.statuses == s.statuses[j := x] && v.statuses == s.statuses[k := y] && j != k
    ensures j in Apply(Apply(s, u), v).statuses
    ensures Apply(Apply(s, u), v).statuses[j] == x <==> (j in s.statuses ==> s.statuses[j] == x)
  {
  }

  /** The deadline, in contrast, depends on the order unless it was set before, or one of the
      two nodes has none, or both have the same. */
  lemma DeadlineConfluentIff(s: State, u: Update, v: Update)
    ensures Apply(Apply(s, u), v).deadline == Apply(Apply(s, v), u).deadline <==>
            (s.deadline.Some? || u.deadline.None? || v.deadline.None? || u.deadline == v.deadline)
  {
  }

  /** Keys whose reducer keeps the first value never change once set, and events only grow. */
  ghost predicate Grows(s: State, t: State) {
    && (s.deadline.Some? ==> t.deadline == s.deadline)
    && (s.step.Some? ==> t.step == s.step)
    && (s.error.Some? ==> t.error == s.error)
    && (s.timer ==> t.timer) && (s.alert80 ==> t.alert80) && (s.escalated ==> t.escalated)
    && s.events <= t.events
    && s.statuses.Keys <= t.statuses.Keys
  }

  lemma {:induction false} FoldGrows(s: State, us: seq<Update>)
    ensures Grows(s, ApplyAll(s, us))
    decreases |us|
  {
    if us != [] {
      FoldGrows(Apply(s, us[0]), us[1..]);
    }
  }

  /** In every run the SLA deadline never changes once it is set, flags stay up, and no event
      leaves the queue; `current_step`, set at the start, stays what it was. */
  lemma {:induction false} RunsGrow(t: seq<Frame>, w: World, i: nat, j: nat)
    requires Run(t, w) && i <= j < |t|
    ensures Grows(t[i].state, t[j].state) && Grows(t[j].state, Final(t, w))
    decreases |t| - i
  {
    FoldGrows(t[j].state, Updates(t[j], w));
    if i < j {
      RunsGrow(t, w, i + 1, j);
      FoldGrows(t[i].state, Updates(t[i], w));
      assert Follows(t[i], w, t[i + 1]);
    } else if j + 1 < |t| {
      RunsGrow(t, w, j + 1, |t| - 1);
      assert Follows(t[j], w, t[j + 1]);
    }
  }

  // ---------------------------------------------------------------------------
  // What every run guarantees
  // ---------------------------------------------------------------------------

  /** The state `run_pipeline` starts from. */
  function Initial(w: World): State {
    State(map[], Some(w.step), None, None, false, false, false, [], false, 0)
  }

  ghost predicate Started(t: seq<Frame>, w: World) {
    Complete(t, w) && t[0].state == Initial(w)
  }

  /** `run_pipeline` starts with no retries and intake counts at most one, so it never sends an
      email to dead letter. */
  lemma NeverDeadLetter(t: seq<Frame>, w: World)
    requires Started(t, w)
    ensures !ToDeadLetter(Result(t[0], w)) && Shape(t)
  {
    ResultOfOne(t[0], w, Intake) by {
      assert Is(t[0].front, {Intake});
    }
    RunsHaveThisShape(t, w);
  }

  /** `current_step` never changes in a run, whatever it starts from, because its reducer keeps
      the first value: it does not track the latest node. */
  lemma StepNeverMoves(t: seq<Frame>, w: World, i: nat)
    requires Run(t, w) && t[0].state.step.Some? && i < |t|
    ensures t[i].state.step == t[0].state.step == Final(t, w).step
  {
    RunsGrow(t, w, 0, i);
    RunsGrow(t, w, 0, |t| - 1);
  }

  lemma FlagAfterClassification(f: Frame, w: World)
    requires Is(f.front, {Classification, Sla})
    ensures Result(f, w).low ==
            if w.classified.EmptyBody? then true else if w.classified.Done? then w.classified.low else f.state.low
  {
    ResultOfTwo(f, w, Classification, Sla);
  }

  lemma FlagAfterLabelling(f: Frame, w: World)
    requires Is(f.front, {ApplyLabel, Response})
    ensures Result(f, w).low == f.state.low
  {
    ResultOfTwo(f, w, ApplyLabel, Response);
  }

  /** Human review takes exactly the emails with an empty body or a low confidence; one whose
      classification failed is routed as if it were confident. */
  lemma ReviewedIff(t: seq<Frame>, w: World)
    requires Started(t, w)
    ensures Shape(t)
    ensures t[3].state.low <==> w.classified.EmptyBody? || (w.classified.Done? && w.classified.low)
  {
    NeverDeadLetter(t, w);
    ResultOfOne(t[0], w, Intake);
    FlagAfterClassification(t[1], w);
    FlagAfterLabelling(t[2], w);
    assert Follows(t[0], w, t[1]) && Follows(t[1], w, t[2]) && Follows(t[2], w, t[3]);
  }

  /** The events the audit node writes over the whole run: its queue, each time it runs. */
  ghost function Audited(t: seq<Frame>): multiset<Event>
    decreases |t|
  {
    if t == [] then multiset{}
    else
      Audited(t[..|t| - 1]) + if Audit in t[|t| - 1].front then multiset(t[|t| - 1].state.events) else multiset{}
  }

  lemma SilentPair(f: Frame, w: World, a: Node, b: Node)
    requires Is(f.front, {a, b}) && a != b
    requires Returns(b, f.state, w).events == []
    ensures Result(f, w).events == f.state.events + Returns(a, f.state, w).events
  {
    ResultOfTwo(f, w, a, b);
    assert f.state.events + [] == f.state.events;
    var e := Returns(a, f.state, w).events;
    assert f.state.events + e + [] == f.state.events + e;
  }

  lemma QueueUnderReview(f: Frame, w: World)
    requires Is(f.front, {HumanReview, Audit})
    ensures Result(f, w).events == f.state.events
  {
    SilentPair(f, w, HumanReview, Audit);
    assert f.state.events + [] == f.state.events;
  }

  lemma QueueUnderRouting(f: Frame, g: Frame, h: Frame, w: World)
    requires Is(f.front, {Routing, Audit}) && Is(g.front, {Response}) && Is(h.front, {Audit})
    requires g.state == Result(f, w) && h.state == Result(g, w)
    ensures h.state.events == f.state.events + w.emits(Routing) && Result(h, w).events == h.state.events
  {
    SilentPair(f, w, Routing, Audit);
    ResultOfOne(g, w, Response);
    ResultOfOne(h, w, Audit);
    assert g.state.events + [] == g.state.events;
    assert h.state.events + [] == h.state.events;
  }

  /** The queue at the first audit, and how it grows afterwards. */
  lemma QueueGrowth(t: seq<Frame>, w: World)
    requires Run(t, w) && Shape(t)
    ensures t[3].state.low ==> Final(t, w).events == t[3].state.events
    ensures !t[3].state.low ==>
      t[5].state.events == t[3].state.events + w.emits(Routing) && Final(t, w).events == t[5].state.events
  {
    if t[3].state.low {
      QueueUnderReview(t[3], w);
    } else {
      assert Follows(t[3], w, t[4]) && Follows(t[4], w, t[5]);
      QueueUnderRouting(t[3], t[4], t[5], w);
    }
  }

  lemma AuditedUpTo3(t: seq<Frame>)
    requires Shape(t)
    ensures Audited(t[..4]) == multiset(t[3].state.events)
  {
    assert Audit !in t[0].front && Audit !in t[1].front && Audit !in t[2].front && Audit in t[3].front;
    assert t[..1][..0] == [] && t[..2][..1] == t[..1] && t[..3][..2] == t[..2] && t[..4][..3] == t[..3];
    assert Audited(t[..1]) == multiset{};
    assert Audited(t[..2]) == multiset{};
    assert Audited(t[..3]) == multiset{};
  }

  lemma AuditedAfterRouting(t: seq<Frame>)
    requires Shape(t) && !t[3].state.low
    ensures Audited(t) == multiset(t[3].state.events) + multiset(t[5].state.events)
  {
    AuditedUpTo3(t);
    assert Audit !in t[4].front && Audit in t[5].front;
    assert t[..5][..4] == t[..4] && t[..5][4] == t[4];
    assert Audited(t[..5]) == Audited(t[..4]) + multiset{};
    assert t[..|t| - 1] == t[..5];
  }

  /** The events the nodes of one superstep return, in folding order. */
  function Returned(us: seq<Update>): seq<Event>
    decreases |us|
  {
    if us == [] then [] else us[0].events + Returned(us[1..])
  }

  /** Every event any node emitted in the run. */
  ghost function RunEmitted(t: seq<Frame>, w: World): multiset<Event>
    decreases |t|
  {
    if t == [] then multiset{}
    else RunEmitted(t[..|t| - 1], w) + multiset(Returned(Updates(t[|t| - 1], w)))
  }

  lemma {:induction false} FoldEvents(s: State, us: seq<Update>)
    ensures ApplyAll(s, us).events == s.events + Returned(us)
    decreases |us|
  {
    if us == [] {
      assert s.events + [] == s.events;
    } else {
      FoldEvents(Apply(s, us[0]), us[1..]);
      assert s.events + us[0].events + Returned(us[1..]) == s.events + Returned(us);
    }
  }

  lemma RunPrefix(t: seq<Frame>, w: World, n: nat)
    requires Run(t, w) && 0 < n <= |t|
    ensures Run(t[..n], w)
  {
    forall i | 0 <= i < n - 1
      ensures Follows(t[..n][i], w, t[..n][i + 1])
    {
      assert Follows(t[i], w, t[i + 1]);
    }
  }

  /** The queue conserves events: at the end of every run it holds what it held at the start
      and every event any node emitted, each as often as it was emitted. */
  lemma {:induction false} QueueConserves(t: seq<Frame>, w: World)
    requires Run(t, w)
    ensures multiset(Final(t, w).events) == multiset(t[0].state.events) + RunEmitted(t, w)
    decreases |t|
  {
    var n := |t| - 1;
    FoldEvents(t[n].state, Updates(t[n], w));
    if n == 0 {
      assert t[..0] == [];
    } else {
      var front := t[..n];
      RunPrefix(t, w, n);
      QueueConserves(front, w);
      assert Follows(t[n - 1], w, t[n]);
    }
  }

  /** Audit coverage: the last time the audit node runs, its snapshot holds every event any
      node emitted in the run. Under human review every event is written once; after routing
      the events that were queued before it are written twice and the routing events once. */
  lemma AuditSeesEverything(t: seq<Frame>, w: World)
    requires Complete(t, w) && !ToDeadLetter(Result(t[0], w))
    ensures Shape(t)
    ensures multiset(t[if t[3].state.low then 3 else 5].state.events) == multiset(t[0].state.events) + RunEmitted(t, w)
    ensures t[3].state.low ==> Audited(t) == multiset(t[0].state.events) + RunEmitted(t, w)
    ensures t[3].state.low ==> t[3].state.events == Final(t, w).events
    ensures !t[3].state.low ==>
      && t[5].state.events == Final(t, w).events
      && Audited(t) == multiset(t[3].state.events) + multiset(t[3].state.events) + multiset(w.emits(Routing))
  {
    RunsHaveThisShape(t, w);
    QueueGrowth(t, w);
    QueueConserves(t, w);
    if t[3].state.low {
      AuditedUpTo3(t);
      assert t[..4] == t;
    } else {
      AuditedAfterRouting(t);
    }
  }

  // --- statuses -------------------------------------------------------------

  /** The status a node reports, if it reports one. */
  ghost function Reported(n: Node, w: World): Option<(string, string)> {
    match n
    case Intake => if w.intakeError.Some? then None else Some(("AG-01", "completed"))
    case Classification =>
      Some(("AG-02", if w.classified.EmptyBody? then "empty_body" else if w.classified.Failed? then "failed" else "completed"))
    case ApplyLabel => Some(("AG-00 (labeler)", "completed"))
    case Routing => Some(("AG-03", "completed"))
    case Sla => Some(("AG-05", "running"))
    case Response => Some(("AG-04", "completed"))
    case Audit => None
    case HumanReview => Some(("AG-00", "awaiting_human"))
    case DeadLetter => Some(("AG-00", "dead_letter"))
  }

  /** No status in the map differs from what its agent reports in this run. */
  ghost predicate Agrees(m: map<string, string>, w: World) {
    forall n :: n != DeadLetter && Reported(n, w).Some? && Reported(n, w).value.0 in m ==>
      m[Reported(n, w).value.0] == Reported(n, w).value.1
  }

  lemma ReturnsAgrees(n: Node, s: State, w: World)
    requires Agrees(s.statuses, w) && n != DeadLetter
    ensures Agrees(Returns(n, s, w).statuses, w)
    ensures Reported(n, w).Some? ==> Reported(n, w).value.0 in Returns(n, s, w).statuses
  {
  }

  lemma {:induction false} FoldAgrees(s: State, us: seq<Update>, w: World)
    requires Agrees(s.statuses, w) && forall i :: 0 <= i < |us| ==> Agrees(us[i].statuses, w)
    ensures Agrees(ApplyAll(s, us).statuses, w)
    ensures forall i :: 0 <= i < |us| ==> us[i].statuses.Keys <= ApplyAll(s, us).statuses.Keys
    decreases |us|
  {
    if us != [] {
      FoldAgrees(Apply(s, us[0]), us[1..], w);
      FoldGrows(Apply(s, us[0]), us[1..]);
      assert us[0].statuses.Keys <= Apply(s, us[0]).statuses.Keys;
      assert forall i :: 0 < i < |us| ==> us[i] == us[1..][i - 1];
    }
  }

  lemma FrameAgrees(f: Frame, w: World)
    requires Agrees(f.state.statuses, w) && DeadLetter !in f.front
    ensures Agrees(Result(f, w).statuses, w)
    ensures forall n :: n in f.front && Reported(n, w).Some? ==> Reported(n, w).value.0 in Result(f, w).statuses
  {
    forall i | 0 <= i < |f.front|
      ensures Agrees(Updates(f, w)[i].statuses, w)
      ensures Reported(f.front[i], w).Some? ==> Reported(f.front[i], w).value.0 in Updates(f, w)[i].statuses
    {
      assert f.front[i] in f.front;
      ReturnsAgrees(f.front[i], f.state, w);
    }
    FoldAgrees(f.state, Updates(f, w), w);
    forall n | n in f.front && Reported(n, w).Some?
      ensures Reported(n, w).value.0 in Result(f, w).statuses
    {
      var i :| 0 <= i < |f.front| && f.front[i] == n;
      assert Updates(f, w)[i].statuses.Keys <= Result(f, w).statuses.Keys;
    }
  }

  lemma {:induction false} RunAgrees(t: seq<Frame>, w: World, i: nat)
    requires Run(t, w) && i < |t| && Agrees(t[0].state.statuses, w)
    requires forall j :: 0 <= j < |t| ==> DeadLetter !in t[j].front
    ensures Agrees(t[i].state.statuses, w)
  {
    if i > 0 {
      RunAgrees(t, w, i - 1);
      FrameAgrees(t[i - 1], w);
      assert Follows(t[i - 1], w, t[i]);
    }
  }

  lemma KeysStay(t: seq<Frame>, w: World, i: nat)
    requires Run(t, w) && i < |t|
    ensures Result(t[i], w).statuses.Keys <= Final(t, w).statuses.Keys
  {
    if i + 1 < |t| {
      assert Follows(t[i], w, t[i + 1]);
      RunsGrow(t, w, i + 1, i + 1);
    }
  }

  lemma ShapeAvoidsDeadLetter(t: seq<Frame>, i: nat)
    requires Shape(t) && i < |t|
    ensures DeadLetter !in t[i].front
  {
  }

  lemma ReportsStay(t: seq<Frame>, w: World, i: nat, n: Node)
    requires Run(t, w) && t[0].state.statuses == map[]
    requires forall j :: 0 <= j < |t| ==> DeadLetter !in t[j].front
    requires i < |t| && n in t[i].front && Reported(n, w).Some?
    ensures Reported(n, w).value.0 in Final(t, w).statuses
    ensures Final(t, w).statuses[Reported(n, w).value.0] == Reported(n, w).value.1
  {
    RunAgrees(t, w, i);
    FrameAgrees(t[i], w);
    KeysStay(t, w, i);
    RunAgrees(t, w, |t| - 1);
    FrameAgrees(t[|t| - 1], w);
    assert n != DeadLetter;
  }

  /** No status is lost: whatever order concurrent updates are folded in, and although every
      node writes back its snapshot of the statuses, the final state holds the status that
      each node of the run reported. */
  lemma NoStatusIsLost(t: seq<Frame>, w: World, i: nat, n: Node)
    requires Started(t, w) && i < |t| && n in t[i].front && Reported(n, w).Some?
    ensures Reported(n, w).value.0 in Final(t, w).statuses
    ensures Final(t, w).statuses[Reported(n, w).value.0] == Reported(n, w).value.1
  {
    NeverDeadLetter(t, w);
    forall j | 0 <= j < |t|
      ensures DeadLetter !in t[j].front
    {
      ShapeAvoidsDeadLetter(t, j);
    }
    ReportsStay(t, w, i, n);
  }

  /** Node `n` reports under the key `k`. */
  ghost predicate Reports(n: Node, w: World, k: string) {
    Reported(n, w).Some? && Reported(n, w).value.0 == k
  }

  /** Some node of the first `i` supersteps reported under the key `k`. */
  ghost predicate ReportedBefore(t: seq<Frame>, w: World, i: nat, k: string) {
    exists j, n :: 0 <= j < i && j < |t| && n in t[j].front && Reports(n, w, k)
  }

  lemma {:induction false} FoldInvents(s: State, us: seq<Update>, k: string)
    requires k in ApplyAll(s, us).statuses
    ensures k in s.statuses || exists i :: 0 <= i < |us| && k in us[i].statuses
    decreases |us|
  {
    if us != [] {
      FoldInvents(Apply(s, us[0]), us[1..], k);
      if i :| 0 <= i < |us[1..]| && k in us[1..][i].statuses {
        assert us[i + 1] == us[1..][i];
      }
    }
  }

  lemma OnlyOwnStatus(n: Node, s: State, w: World, k: string)
    requires k in Returns(n, s, w).statuses
    ensures k in s.statuses || Reports(n, w, k)
  {
  }

  lemma FrameInvents(f: Frame, w: World, k: string)
    requires k in Result(f, w).statuses
    ensures k in f.state.statuses || exists n :: n in f.front && Reports(n, w, k)
  {
    FoldInvents(f.state, Updates(f, w), k);
    if k !in f.state.statuses {
      var i :| 0 <= i < |Updates(f, w)| && k in Updates(f, w)[i].statuses;
      assert f.front[i] in f.front;
      OnlyOwnStatus(f.front[i], f.state, w, k);
    }
  }

  /** And nothing else is in it: every status was reported by a node of the run. */
  lemma {:induction false} NoStatusIsInvented(t: seq<Frame>, w: World, i: nat, k: string)
    requires Run(t, w) && t[0].state.statuses == map[] && i < |t| && k in Result(t[i], w).statuses
    ensures ReportedBefore(t, w, i + 1, k)
  {
    FrameInvents(t[i], w, k);
    if k in t[i].state.statuses {
      assert i > 0;
      assert Follows(t[i - 1], w, t[i]);
      NoStatusIsInvented(t, w, i - 1, k);
    }
  }

  predicate Together(m: Node, n: Node) {
    match m
    case Classification => n == Sla
    case Sla => n == Classification
    case ApplyLabel => n == Response
    case Response => n == ApplyLabel
    case HumanReview => n == Audit
    case Routing => n == Audit
    case Audit => n == HumanReview || n == Routing
    case _ => false
  }

  lemma SharedSupersteps(t: seq<Frame>, i: nat, m: Node, n: Node)
    requires Shape(t) && i < |t| && m in t[i].front && n in t[i].front && m != n
    ensures Together(m, n)
  {
  }

  lemma PartnersDoNotClash(m: Node, n: Node)
    requires Together(m, n)
    ensures Plain(m) !! Plain(n)
  {
  }

  /** Nodes that share a superstep never write the same key without a reducer. */
  lemma NoConflictingWrites(t: seq<Frame>, w: World, i: nat, m: Node, n: Node)
    requires Complete(t, w) && !ToDeadLetter(Result(t[0], w))
    requires i < |t| && m in t[i].front && n in t[i].front && m != n
    ensures Plain(m) !! Plain(n)
  {
    RunsHaveThisShape(t, w);
    SharedSupersteps(t, i, m, n);
    PartnersDoNotClash(m, n);
  }

  // --- the folding order ----------------------------------------------------

  /** Two states that differ at most in the deadline and in the order of their events. */
  ghost predicate Alike(s: State, t: State) {
    && s.statuses == t.statuses && s.step == t.step && s.error == t.error
    && s.timer == t.timer && s.alert80 == t.alert80 && s.escalated == t.escalated
    && multiset(s.events) == multiset(t.events) && s.low == t.low && s.retries == t.retries
  }

  ghost predicate AlikeUpdates(u: Update, v: Update) {
    u == v.(deadline := u.deadline)
  }

  lemma ReturnsAlike(n: Node, s: State, t: State, w: World)
    requires Alike(s, t)
    ensures AlikeUpdates(Returns(n, s, w), Returns(n, t, w))
  {
  }

  lemma ApplyAlike(s: State, t: State, u: Update, v: Update)
    requires Alike(s, t) && AlikeUpdates(u, v)
    ensures Alike(Apply(s, u), Apply(t, v))
  {
  }

  /** A node's update adds at most its own status to the snapshot. */
  lemma OwnStatus(n: Node, s: State, w: World)
    requires Agrees(s.statuses, w) && n != DeadLetter
    ensures Returns(n, s, w).statuses ==
            if Reported(n, w).Some? then s.statuses[Reported(n, w).value.0 := Reported(n, w).value.1] else map[]
    ensures Reported(n, w).Some? && Reported(n, w).value.0 in s.statuses ==>
            s.statuses[Reported(n, w).value.0] == Reported(n, w).value.1
  {
  }

  ghost predicate Adds(m: map<string, string>, written: map<string, string>, r: Option<(string, string)>) {
    && written == (if r.Some? then m[r.value.0 := r.value.1] else map[])
    && (r.Some? && r.value.0 in m ==> m[r.value.0] == r.value.1)
  }

  lemma AddsCommute(m: map<string, string>, u: map<string, string>, v: map<string, string>,
                    r: Option<(string, string)>, q: Option<(string, string)>)
    requires Adds(m, u, r) && Adds(m, v, q) && (r.Some? && q.Some? ==> r.value.0 != q.value.0)
    ensures m + u + v == m + v + u
  {
  }

  lemma PartnersReportApart(a: Node, b: Node, w: World)
    requires Together(a, b)
    ensures Reported(a, w).Some? && Reported(b, w).Some? ==> Reported(a, w).value.0 != Reported(b, w).value.0
    ensures a != DeadLetter && b != DeadLetter
  {
  }

  lemma StatusesCommute(s: State, a: Node, b: Node, w: World)
    requires Agrees(s.statuses, w) && Together(a, b)
    ensures
      var u, v := Returns(a, s, w), Returns(b, s, w);
      Apply(Apply(s, u), v).statuses == Apply(Apply(s, v), u).statuses
  {
    PartnersReportApart(a, b, w);
    OwnStatus(a, s, w);
    OwnStatus(b, s, w);
    AddsCommute(s.statuses, Returns(a, s, w).statuses, Returns(b, s, w).statuses, Reported(a, w), Reported(b, w));
  }

  /** Partners never write the same plain key, nor an error both. */
  lemma PartnersWriteApart(s: State, a: Node, b: Node, w: World)
    requires Together(a, b)
    ensures
      var u, v := Returns(a, s, w), Returns(b, s, w);
      && (u.error.None? || v.error.None?) && (u.low.None? || v.low.None?) && (u.retries.None? || v.retries.None?)
  {
  }

  /** Partners can be folded in in either order, but for the deadline. */
  lemma PartnersCommute(s: State, a: Node, b: Node, w: World)
    requires Agrees(s.statuses, w) && Together(a, b) && s.step.Some?
    ensures
      var u, v := Returns(a, s, w), Returns(b, s, w);
      Alike(Apply(Apply(s, u), v), Apply(Apply(s, v), u))
  {
    var u, v := Returns(a, s, w), Returns(b, s, w);
    StatusesCommute(s, a, b, w);
    PartnersWriteApart(s, a, b, w);
    assert multiset(s.events + u.events + v.events) == multiset(s.events + v.events + u.events);
  }

  lemma PairAlike(f: Frame, g: Frame, w: World, a: Node, b: Node)
    requires Is(f.front, {a, b}) && Is(g.front, {a, b}) && a != b && Together(a, b)
    requires Alike(f.state, g.state) && Agrees(f.state.statuses, w) && f.state.step.Some?
    ensures Alike(Result(f, w), Result(g, w))
  {
    ResultOfTwo(f, w, a, b);
    ResultOfTwo(g, w, a, b);
    PartnersCommute(f.state, a, b, w);
    var u, v := Returns(a, f.state, w), Returns(b, f.state, w);
    var u', v' := Returns(a, g.state, w), Returns(b, g.state, w);
    ReturnsAlike(a, f.state, g.state, w);
    ReturnsAlike(b, f.state, g.state, w);
    ApplyAlike(f.state, g.state, u, u');
    ApplyAlike(f.state, g.state, v, v');
    ApplyAlike(Apply(f.state, u), Apply(g.state, u'), v, v');
    ApplyAlike(Apply(f.state, v), Apply(g.state, v'), u, u');
  }

  lemma OneAlike(f: Frame, g: Frame, w: World, a: Node)
    requires Is(f.front, {a}) && Is(g.front, {a}) && Alike(f.state, g.state)
    ensures Alike(Result(f, w), Result(g, w))
  {
    ResultOfOne(f, w, a);
    ResultOfOne(g, w, a);
    ReturnsAlike(a, f.state, g.state, w);
    ApplyAlike(f.state, g.state, Returns(a, f.state, w), Returns(a, g.state, w));
  }

  /** What `PairAlike` needs holds throughout a started run. */
  lemma StartedFacts(t: seq<Frame>, w: World, i: nat)
    requires Started(t, w) && i < |t|
    ensures Shape(t) && Agrees(t[i].state.statuses, w) && t[i].state.step.Some?
    ensures i + 1 < |t| ==> t[i + 1].state == Result(t[i], w)
  {
    NeverDeadLetter(t, w);
    forall j | 0 <= j < |t|
      ensures DeadLetter !in t[j].front
    {
      ShapeAvoidsDeadLetter(t, j);
    }
    RunAgrees(t, w, i);
    RunsGrow(t, w, 0, i);
    if i + 1 < |t| {
      assert Follows(t[i], w, t[i + 1]);
    }
  }

  lemma FirstHalfAlike(t: seq<Frame>, t': seq<Frame>, w: World)
    requires Started(t, w) && Started(t', w)
    ensures Shape(t) && Shape(t') && Alike(t[3].state, t'[3].state)
  {
    StartedFacts(t, w, 0);
    StartedFacts(t', w, 0);
    OneAlike(t[0], t'[0], w, Intake);
    StartedFacts(t, w, 1);
    StartedFacts(t', w, 1);
    PairAlike(t[1], t'[1], w, Classification, Sla);
    StartedFacts(t, w, 2);
    StartedFacts(t', w, 2);
    PairAlike(t[2], t'[2], w, ApplyLabel, Response);
  }

  lemma SecondHalfAlike(t: seq<Frame>, t': seq<Frame>, w: World)
    requires Started(t, w) && Started(t', w) && Shape(t) && Shape(t') && Alike(t[3].state, t'[3].state)
    requires !t[3].state.low
    ensures Alike(t[5].state, t'[5].state) && Alike(Final(t, w), Final(t', w))
  {
    StartedFacts(t, w, 3);
    StartedFacts(t', w, 3);
    PairAlike(t[3], t'[3], w, Routing, Audit);
    StartedFacts(t, w, 4);
    StartedFacts(t', w, 4);
    OneAlike(t[4], t'[4], w, Response);
    OneAlike(t[5], t'[5], w, Audit);
  }

  /** Whole-run confluence: with the same environment, every run of `run_pipeline` takes the
      same path and ends in the same state, but for the deadline and the order of the events,
      whatever order concurrent updates are folded in. The audit log is the same. */
  lemma RunsAgree(t: seq<Frame>, t': seq<Frame>, w: World)
    requires Started(t, w) && Started(t', w)
    ensures |t| == |t'| && Alike(Final(t, w), Final(t', w))
    ensures Audited(t) == Audited(t')
  {
    FirstHalfAlike(t, t', w);
    AuditSeesEverything(t, w) by {
      NeverDeadLetter(t, w);
    }
    AuditSeesEverything(t', w) by {
      NeverDeadLetter(t', w);
    }
    if t[3].state.low {
      StartedFacts(t, w, 3);
      PairAlike(t[3], t'[3], w, HumanReview, Audit);
    } else {
      SecondHalfAlike(t, t', w);
    }
  }

  // --- the deadline ---------------------------------------------------------

  /** The deadline classification returns. */
  function Classed(w: World): Option<int> {
    if w.classified.Done? then Some(w.classified.deadline) else None
  }

  lemma NoDeadlineBeforeFanOut(t: seq<Frame>, w: World)
    requires Started(t, w)
    ensures Shape(t) && t[1].state == Result(t[0], w) && t[1].state.deadline == None
  {
    StartedFacts(t, w, 0);
    ResultOfOne(t[0], w, Intake);
  }

  lemma FanOutDeadline(f: Frame, w: World, a: Node, b: Node)
    requires f.front == [a, b]
    ensures Result(f, w).deadline ==
            MergeFirst(MergeFirst(f.state.deadline, Returns(a, f.state, w).deadline), Returns(b, f.state, w).deadline)
  {
    var u, v := Returns(a, f.state, w), Returns(b, f.state, w);
    FoldOfTwo(f.state, u, v);
    assert Updates(f, w) == [u, v];
  }

  lemma FanOutFrame(f: Frame, w: World)
    requires f.front == [Classification, Sla] || f.front == [Sla, Classification]
    requires f.state.deadline == None
    ensures Result(f, w).deadline ==
            if f.front == [Classification, Sla] then MergeFirst(Classed(w), w.slaDefault)
            else MergeFirst(w.slaDefault, Classed(w))
  {
    FanOutDeadline(f, w, f.front[0], f.front[1]);
    assert Returns(Classification, f.state, w).deadline == Classed(w);
    assert Returns(Sla, f.state, w).deadline == w.slaDefault;
  }

  lemma FanOutOrders(t: seq<Frame>)
    requires Shape(t)
    ensures t[1].front == [Classification, Sla] || t[1].front == [Sla, Classification]
  {
    TwoOrders(t[1].front, Classification, Sla);
  }

  /** After the fan-out the deadline is that of whichever node was folded in first. */
  lemma DeadlineAfterFanOut(t: seq<Frame>, w: World)
    requires Started(t, w)
    ensures Shape(t) && (t[1].front == [Classification, Sla] || t[1].front == [Sla, Classification])
    ensures t[2].state.deadline ==
            if t[1].front == [Classification, Sla] then MergeFirst(Classed(w), w.slaDefault)
            else MergeFirst(w.slaDefault, Classed(w))
  {
    NoDeadlineBeforeFanOut(t, w);
    assert Follows(t[1], w, t[2]);
    FanOutOrders(t);
    FanOutFrame(t[1], w);
  }

  predicate SetsDeadline(n: Node) {
    n == Classification || n == Sla
  }

  lemma {:induction false} FoldKeepsDeadline(s: State, us: seq<Update>)
    requires forall i :: 0 <= i < |us| ==> us[i].deadline == None
    ensures ApplyAll(s, us).deadline == s.deadline
    decreases |us|
  {
    if us != [] {
      FoldKeepsDeadline(Apply(s, us[0]), us[1..]);
    }
  }

  lemma FrameKeepsDeadline(f: Frame, w: World)
    requires forall n :: n in f.front ==> !SetsDeadline(n)
    ensures Result(f, w).deadline == f.state.deadline
  {
    forall i | 0 <= i < |f.front|
      ensures Updates(f, w)[i].deadline == None
    {
      assert f.front[i] in f.front;
    }
    FoldKeepsDeadline(f.state, Updates(f, w));
  }

  lemma LaterNodesSetNoDeadline(t: seq<Frame>, i: nat)
    requires Shape(t) && 2 <= i < |t|
    ensures forall n :: n in t[i].front ==> !SetsDeadline(n)
  {
  }

  /** Nothing after the fan-out changes the deadline. */
  lemma {:induction false} DeadlineStays(t: seq<Frame>, w: World, i: nat)
    requires Run(t, w) && Shape(t) && 2 <= i < |t|
    ensures t[i].state.deadline == t[2].state.deadline == Result(t[i], w).deadline
  {
    LaterNodesSetNoDeadline(t, i);
    FrameKeepsDeadline(t[i], w);
    if i > 2 {
      DeadlineStays(t, w, i - 1);
      assert Follows(t[i - 1], w, t[i]);
    }
  }

  /** A run of `run_pipeline` that folds the fan-out in the given order. */
  lemma RunInOrder(w: World, front: seq<Node>) returns (t: seq<Frame>)
    requires front == [Classification, Sla] || front == [Sla, Classification]
    ensures Started(t, w) && |t| > 1 && t[1].front == front
  {
    var f := Frame([Intake], Initial(w));
    assert f.front[0] == Intake;
    assert Is(f.front, {Intake});
    ResultOfOne(f, w, Intake);
    var g := Frame(front, Result(f, w));
    TargetsOfOne(Intake, g.state);
    forall m
      ensures m in g.front <==> Fired(f.front, g.state, m)
    {
      FiredIffTarget(f.front, {Intake}, g.state, m);
    }
    assert Follows(f, w, g);
    t := EveryRunCompletes([f, g], w);
    assert t[0] == f && t[1] == g;
  }

  /** What all runs of `run_pipeline` with one environment agree on, in the deadline. */
  ghost predicate OneDeadline(w: World) {
    forall t, t' :: Started(t, w) && Started(t', w) ==> Final(t, w).deadline == Final(t', w).deadline
  }

  lemma FinalDeadline(t: seq<Frame>, w: World)
    requires Started(t, w)
    ensures |t| > 2 && Final(t, w).deadline ==
            if t[1].front == [Classification, Sla] then MergeFirst(Classed(w), w.slaDefault)
            else MergeFirst(w.slaDefault, Classed(w))
  {
    DeadlineAfterFanOut(t, w);
    DeadlineStays(t, w, |t| - 1);
  }

  /** The final deadline does not depend on the folding order exactly when classification sets
      none, the tenant has no default, or both are the same instant. */
  lemma DeadlineAgreesIff(w: World)
    ensures OneDeadline(w) <==> !w.classified.Done? || w.slaDefault == None || w.slaDefault == Some(w.classified.deadline)
  {
    var t := RunInOrder(w, [Classification, Sla]);
    var t' := RunInOrder(w, [Sla, Classification]);
    FinalDeadline(t, w);
    FinalDeadline(t', w);
    if !w.classified.Done? || w.slaDefault == None || w.slaDefault == Some(w.classified.deadline) {
      forall r, r' | Started(r, w) && Started(r', w)
        ensures Final(r, w).deadline == Final(r', w).deadline
      {
        FinalDeadline(r, w);
        FinalDeadline(r', w);
      }
    }
  }

  // --- the final state ------------------------------------------------------

  /** The parts of the state that have one value each. */
  datatype Scalars = Scalars(error: Option<string>, timer: bool, alert80: bool, escalated: bool, low: bool, retries: nat)

  function ScalarsOf(s: State): Scalars {
    Scalars(s.error, s.timer, s.alert80, s.escalated, s.low, s.retries)
  }

  lemma AfterIntake(f: Frame, w: World)
    requires Is(f.front, {Intake}) && f.state == Initial(w)
    ensures ScalarsOf(Result(f, w)) ==
            Scalars(w.intakeError, false, false, false, false, if w.intakeError.Some? then 1 else 0)
  {
    ResultOfOne(f, w, Intake);
  }

  /** The error classification reports. */
  function Complaint(w: World): Option<string> {
    match w.classified
    case EmptyBody(why) => Some(why)
    case Failed(why) => Some(why)
    case Done(_, _, _) => None
  }

  lemma AfterClassification(f: Frame, w: World)
    requires Is(f.front, {Classification, Sla}) && !f.state.low
    ensures
      var s := f.state;
      ScalarsOf(Result(f, w)) ==
      Scalars(if s.error.Some? then s.error else Complaint(w), true, s.alert80,
              s.escalated || (w.classified.Done? && w.classified.escalated),
              w.classified.EmptyBody? || (w.classified.Done? && w.classified.low),
              if w.classified.Done? then s.retries else s.retries + 1)
  {
    ResultOfTwo(f, w, Classification, Sla);
  }

  predicate Quietly(n: Node) {
    n == ApplyLabel || n == Response || n == Routing || n == Audit || n == HumanReview
  }

  lemma {:induction false} FoldKeepsScalars(s: State, us: seq<Update>)
    requires forall i :: 0 <= i < |us| ==>
               us[i] == NOTHING.(statuses := us[i].statuses, step := us[i].step, events := us[i].events)
    ensures ScalarsOf(ApplyAll(s, us)) == ScalarsOf(s)
    decreases |us|
  {
    if us != [] {
      FoldKeepsScalars(Apply(s, us[0]), us[1..]);
    }
  }

  lemma FrameKeepsScalars(f: Frame, w: World)
    requires forall n :: n in f.front ==> Quietly(n)
    ensures ScalarsOf(Result(f, w)) == ScalarsOf(f.state)
  {
    forall i | 0 <= i < |f.front|
      ensures var u := Updates(f, w)[i]; u == NOTHING.(statuses := u.statuses, step := u.step, events := u.events)
    {
      assert f.front[i] in f.front;
    }
    FoldKeepsScalars(f.state, Updates(f, w));
  }

  lemma LaterNodesAreQuiet(t: seq<Frame>, i: nat)
    requires Shape(t) && 2 <= i < |t|
    ensures forall n :: n in t[i].front ==> Quietly(n)
  {
  }

  lemma {:induction false} ScalarsStay(t: seq<Frame>, w: World, i: nat)
    requires Run(t, w) && Shape(t) && 2 <= i < |t|
    ensures ScalarsOf(Result(t[i], w)) == ScalarsOf(t[2].state)
  {
    LaterNodesAreQuiet(t, i);
    FrameKeepsScalars(t[i], w);
    if i > 2 {
      ScalarsStay(t, w, i - 1);
      assert Follows(t[i - 1], w, t[i]);
    }
  }

  /** What every run of `run_pipeline` ends with: the timer is started, the email is escalated
      exactly if classification says so, no alert is recorded, the error is that of intake or
      else of classification, and the retries count the two failures. */
  lemma FinalOutcome(t: seq<Frame>, w: World)
    requires Started(t, w)
    ensures
      var s := Final(t, w);
      && s.timer && !s.alert80
      && (s.escalated <==> w.classified.Done? && w.classified.escalated)
      && (s.low <==> w.classified.EmptyBody? || (w.classified.Done? && w.classified.low))
      && s.error == (if w.intakeError.Some? then w.intakeError else Complaint(w))
      && s.retries == (if w.intakeError.Some? then 1 else 0) + (if w.classified.Done? then 0 else 1)
  {
    NeverDeadLetter(t, w);
    StartedFacts(t, w, 0);
    AfterIntake(t[0], w);
    StartedFacts(t, w, 1);
    AfterClassification(t[1], w);
    ScalarsStay(t, w, |t| - 1);
    assert ScalarsOf(Final(t, w)).timer;
  }

  /** The nodes that run, each with its own events. */
  function Emitted(n: Node, w: World): multiset<Event> {
    match n
    case Intake => if w.intakeError.Some? then multiset{} else multiset(w.emits(Intake))
    case Classification => multiset(w.emits(Classification))
    case Routing => multiset(w.emits(Routing))
    case Sla => multiset(w.emits(Sla))
    case _ => multiset{}
  }

  lemma OneFrameEmits(f: Frame, w: World, a: Node)
    requires Is(f.front, {a})
    ensures multiset(Returned(Updates(f, w))) == Emitted(a, w)
  {
    DistinctCount(f.front);
    assert Elems(f.front) == {a};
    assert f.front[0] in f.front;
    assert Updates(f, w) == [Returns(a, f.state, w)];
    ReturnedOfOne(Returns(a, f.state, w));
  }

  lemma ReturnedOfOne(u: Update)
    ensures Returned([u]) == u.events
  {
    assert [u][1..] == [];
    assert u.events + [] == u.events;
  }

  lemma ReturnedOfTwo(u: Update, v: Update)
    ensures Returned([u, v]) == u.events + v.events
  {
    assert [u, v][1..] == [v];
    ReturnedOfOne(v);
  }

  lemma NodeEmits(n: Node, s: State, w: World)
    ensures multiset(Returns(n, s, w).events) == Emitted(n, w)
  {
  }

  lemma TwoUpdates(f: Frame, w: World, a: Node, b: Node)
    requires f.front == [a, b]
    ensures Returned(Updates(f, w)) == Returns(a, f.state, w).events + Returns(b, f.state, w).events
  {
    assert Updates(f, w) == [Returns(a, f.state, w), Returns(b, f.state, w)];
    ReturnedOfTwo(Returns(a, f.state, w), Returns(b, f.state, w));
  }

  lemma TwoFrameEmits(f: Frame, w: World, a: Node, b: Node)
    requires Is(f.front, {a, b}) && a != b
    ensures multiset(Returned(Updates(f, w))) == Emitted(a, w) + Emitted(b, w)
  {
    TwoOrders(f.front, a, b);
    NodeEmits(a, f.state, w);
    NodeEmits(b, f.state, w);
    if f.front == [a, b] {
      TwoUpdates(f, w, a, b);
    } else {
      TwoUpdates(f, w, b, a);
    }
  }

  lemma EmittedStep(t: seq<Frame>, w: World, n: nat)
    requires n < |t|
    ensures RunEmitted(t[..n + 1], w) == RunEmitted(t[..n], w) + multiset(Returned(Updates(t[n], w)))
  {
    assert t[..n + 1][..n] == t[..n];
  }

  /** The superstep `n` adds the events of its one or two nodes. */
  lemma OneNodeAdds(t: seq<Frame>, w: World, n: nat, a: Node)
    requires n < |t| && Is(t[n].front, {a})
    ensures RunEmitted(t[..n + 1], w) == RunEmitted(t[..n], w) + Emitted(a, w)
  {
    EmittedStep(t, w, n);
    OneFrameEmits(t[n], w, a);
  }

  lemma TwoNodesAdd(t: seq<Frame>, w: World, n: nat, a: Node, b: Node)
    requires n < |t| && Is(t[n].front, {a, b}) && a != b
    ensures RunEmitted(t[..n + 1], w) == RunEmitted(t[..n], w) + (Emitted(a, w) + Emitted(b, w))
  {
    EmittedStep(t, w, n);
    TwoFrameEmits(t[n], w, a, b);
  }

  /** A superstep of which at most one node, `a`, emits anything. */
  lemma OnlyOneEmits(t: seq<Frame>, w: World, n: nat, a: Node, b: Node)
    requires n < |t| && Is(t[n].front, {a, b}) && a != b && Emitted(b, w) == multiset{}
    ensures RunEmitted(t[..n + 1], w) == RunEmitted(t[..n], w) + Emitted(a, w)
    ensures Emitted(a, w) == multiset{} ==> RunEmitted(t[..n + 1], w) == RunEmitted(t[..n], w)
  {
    TwoNodesAdd(t, w, n, a, b);
  }

  lemma SilentFrame(t: seq<Frame>, w: World, n: nat, a: Node)
    requires n < |t| && Is(t[n].front, {a}) && Emitted(a, w) == multiset{}
    ensures RunEmitted(t[..n + 1], w) == RunEmitted(t[..n], w)
  {
    OneNodeAdds(t, w, n, a);
  }

  lemma NothingEmitted(t: seq<Frame>, w: World)
    ensures RunEmitted(t[..0], w) == multiset{}
  {
    assert t[..0] == [];
  }

  lemma FirstEmits(t: seq<Frame>, w: World)
    requires |t| >= 3 && Is(t[0].front, {Intake}) && Is(t[1].front, {Classification, Sla})
    requires Is(t[2].front, {ApplyLabel, Response})
    ensures RunEmitted(t[..3], w) == Emitted(Intake, w) + (Emitted(Classification, w) + Emitted(Sla, w))
  {
    NothingEmitted(t, w);
    OneNodeAdds(t, w, 0, Intake);
    TwoNodesAdd(t, w, 1, Classification, Sla);
    OnlyOneEmits(t, w, 2, ApplyLabel, Response);
  }

  lemma RoutedEmits(t: seq<Frame>, w: World)
    requires |t| >= 6 && Is(t[3].front, {Routing, Audit}) && Is(t[4].front, {Response}) && Is(t[5].front, {Audit})
    ensures RunEmitted(t[..6], w) == RunEmitted(t[..3], w) + Emitted(Routing, w)
  {
    OnlyOneEmits(t, w, 3, Routing, Audit);
    SilentFrame(t, w, 4, Response);
    SilentFrame(t, w, 5, Audit);
  }

  lemma ReviewedEmits(t: seq<Frame>, w: World)
    requires |t| >= 4 && Is(t[3].front, {HumanReview, Audit})
    ensures RunEmitted(t[..4], w) == RunEmitted(t[..3], w)
  {
    OnlyOneEmits(t, w, 3, HumanReview, Audit);
  }

  lemma ShapeEmits(t: seq<Frame>, w: World)
    requires Shape(t)
    ensures RunEmitted(t, w) ==
            RunEmitted(t[..3], w) + if t[3].state.low then multiset{} else Emitted(Routing, w)
  {
    if t[3].state.low {
      ReviewedEmits(t, w);
      assert t[..4] == t;
    } else {
      RoutedEmits(t, w);
      assert t[..6] == t;
    }
  }

  /** The events of a whole run, node by node: intake's if it succeeded, classification's, the
      SLA node's and, unless a person reviews the email, routing's. */
  lemma EventsOfARun(t: seq<Frame>, w: World)
    requires Complete(t, w) && !ToDeadLetter(Result(t[0], w))
    ensures Shape(t)
    ensures multiset(Final(t, w).events) ==
            multiset(t[0].state.events) +
            (Emitted(Intake, w) + (Emitted(Classification, w) + Emitted(Sla, w)) +
             if t[3].state.low then multiset{} else Emitted(Routing, w))
  {
    RunsHaveThisShape(t, w);
    QueueConserves(t, w);
    FirstEmits(t, w);
    ShapeEmits(t, w);
  }

  // --- dead letters -----------------------------------------------------------

  /** From any start, intake sends an email to dead letter exactly when an error is in the
      state, the first one not empty, after at least three failures counting its own; the run
      then ends with the dead-letter node. */
  lemma DeadLetterIff(t: seq<Frame>, w: World)
    requires Complete(t, w)
    ensures
      var error := if t[0].state.error.Some? then t[0].state.error else w.intakeError;
      ToDeadLetter(Result(t[0], w)) <==>
      error.Some? && error.value != "" && t[0].state.retries + (if w.intakeError.Some? then 1 else 0) >= 3
    ensures ToDeadLetter(Result(t[0], w)) ==>
      |t| == 2 && t[1].front == [DeadLetter] &&
      "AG-00" in Final(t, w).statuses && Final(t, w).statuses["AG-00"] == "dead_letter"
  {
    IntakeFront(t, w);
    ResultOfOne(t[0], w, Intake);
    if ToDeadLetter(Result(t[0], w)) {
      DeadLetterEnds(t, w);
    }
  }

  lemma DeadLetterEnds(t: seq<Frame>, w: World)
    requires Complete(t, w) && ToDeadLetter(Result(t[0], w)) && Is(t[0].front, {Intake})
    ensures |t| == 2 && t[1].front == [DeadLetter]
    ensures "AG-00" in Final(t, w).statuses && Final(t, w).statuses["AG-00"] == "dead_letter"
  {
    TargetsOfOne(Intake, Result(t[0], w));
    GoesOnIfTargets(t, w, 0, {Intake}, DeadLetter);
    TargetsOfOne(DeadLetter, Result(t[1], w));
    EndsIfNoTargets(t, w, 1, {DeadLetter});
    DistinctCount(t[1].front);
    assert Elems(t[1].front) == {DeadLetter};
    assert t[1].front[0] in t[1].front;
    ResultOfOne(t[1], w, DeadLetter);
  }
}
