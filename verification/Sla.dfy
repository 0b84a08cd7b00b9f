/** The SLA monitor (agents/sla_agent.py): a periodic job that warns at 80 % and escalates
    at 100 % of an email's window, deduplicating its alerts with expiring Redis keys. */
module Sla {
  import opened Spacing

  /** The two families of deduplication keys. */
  datatype Kind = BreachKey | WarnKey

  datatype Option<T> = None | Some(value: T)

  datatype Key = Key(kind: Kind, id: string)

  function Ttl(kind: Kind): real {
    match kind
    case BreachKey => 3600.0
    case WarnKey => 1800.0
  }

  /** An email as the open-emails query returns it. */
  datatype Email = Email(id: string, created: real, deadline: real, alerted: bool, escalated: bool)

  /** The SLA columns of the emails table. */
  datatype Row = Row(elapsed: real, alerted: bool, escalated: bool, assignee: string)

  /** Redis keys by expiry instant, and the rows of the table. */
  datatype Store = Store(keys: map<Key, real>, rows: map<string, Row>)

  /** One check's surroundings: the clock reading `now`, the instants at which the keys are
      looked up, the alert goes out and the key is set; whether Redis answers each command
      and the database takes the update; the configured team-lead queue. */
  datatype Env = Env(now: real, asked: real, sent: real, marked: real, asks: bool, marks: bool, dbOk: bool, lead: string)

  datatype Check = Check(email: Email, env: Env)

  datatype Action = ZeroWindow | BreachEscalated | Alert80Sent | ElapsedUpdated

  // ---------------------------------------------------------------------------
  // One check
  // ---------------------------------------------------------------------------

  function Window(e: Email): real {
    e.deadline - e.created
  }

  function Pct(e: Email, now: real): real
    requires Window(e) > 0.0
  {
    (now - e.created) / Window(e) * 100.0
  }

  /** A failing lookup counts as "not sent": the alert fires anyway. */
  predicate Sent(keys: map<Key, real>, k: Key, env: Env) {
    env.asks && k in keys && env.asked < keys[k]
  }

  function Decide(keys: map<Key, real>, c: Check): Action {
    if Window(c.email) <= 0.0 then ZeroWindow
    else if Pct(c.email, c.env.now) >= 100.0 && !Sent(keys, Key(BreachKey, c.email.id), c.env) then BreachEscalated
    else if Pct(c.email, c.env.now) >= 80.0 && !Sent(keys, Key(WarnKey, c.email.id), c.env) then Alert80Sent
    else ElapsedUpdated
  }

  function Marked(keys: map<Key, real>, k: Key, env: Env): map<Key, real> {
    if env.marks then keys[k := env.marked + Ttl(k.kind)] else keys
  }

  function KeysAfter(keys: map<Key, real>, c: Check): map<Key, real> {
    match Decide(keys, c)
    case BreachEscalated => Marked(keys, Key(BreachKey, c.email.id), c.env)
    case Alert80Sent => Marked(keys, Key(WarnKey, c.email.id), c.env)
    case _ => keys
  }

  /** The UPDATE of one row; it matches nothing when the row is gone. */
  function Updated(rows: map<string, Row>, id: string, elapsed: real, alerted: bool, escalated: bool, assignee: string): map<string, Row> {
    if id !in rows then rows
    else rows[id := Row(elapsed, alerted, escalated, if assignee != "" then assignee else rows[id].assignee)]
  }

  function RowsAfter(s: Store, c: Check): map<string, Row> {
    var elapsed := c.env.now - c.email.created;
    if !c.env.dbOk then s.rows
    else
      match Decide(s.keys, c)
      case ZeroWindow => s.rows
      case BreachEscalated => Updated(s.rows, c.email.id, elapsed, true, true, c.env.lead)
      case Alert80Sent => Updated(s.rows, c.email.id, elapsed, true, false, "")
      case ElapsedUpdated => Updated(s.rows, c.email.id, elapsed, c.email.alerted, c.email.escalated, "")
  }

  function Checked(s: Store, c: Check): Store {
    Store(KeysAfter(s.keys, c), RowsAfter(s, c))
  }

  /** A check raises when its update fails; a skipped email is never updated. */
  predicate Raises(s: Store, c: Check) {
    !c.env.dbOk && Decide(s.keys, c) != ZeroWindow
  }

  // ---------------------------------------------------------------------------
  // The periodic cycle
  // ---------------------------------------------------------------------------

  datatype Summary = Summary(total: nat, alerts80: nat, breaches: nat, updated: nat, errors: nat)

  function Counted(m: Summary, s: Store, c: Check): Summary {
    if Raises(s, c) then m.(errors := m.errors + 1)
    else
      match Decide(s.keys, c)
      case ZeroWindow => m
      case BreachEscalated => m.(breaches := m.breaches + 1)
      case Alert80Sent => m.(alerts80 := m.alerts80 + 1)
      case ElapsedUpdated => m.(updated := m.updated + 1)
  }

  datatype Status = Safe | AtRisk | Breach

  datatype Tile = Tile(id: string, pct: real, status: Status)

  /** `float(int(x * 10) / 10.0)`: one decimal, truncated toward zero. */
  function Trunc1(x: real): real {
    (if x >= 0.0 then (x * 10.0).Floor as real else -((-x * 10.0).Floor as real)) / 10.0
  }

  function TileOf(e: Email, now: real): Tile {
    var pct := if Window(e) > 0.0 then Pct(e, now) else 0.0;
    Tile(e.id, Trunc1(pct), if pct >= 100.0 then Breach else if pct >= 80.0 then AtRisk else Safe)
  }

  /** The state after the checks of a run, in order. */
  function After(s: Store, run: seq<Check>): Store
    decreases |run|
  {
    if run == [] then s else Checked(After(s, run[..|run| - 1]), run[|run| - 1])
  }

  function Tally(s: Store, run: seq<Check>): Summary
    decreases |run|
  {
    if run == [] then Summary(0, 0, 0, 0, 0)
    else
      var front := run[..|run| - 1];
      var m := Counted(Tally(s, front), After(s, front), run[|run| - 1]);
      m.(total := m.total + 1)
  }

  /** The Celery job over its two stores. */
  class Monitor {
    var keys: map<Key, real>
    var rows: map<string, Row>

    function View(): Store
      reads this
    {
      Store(keys, rows)
    }

    constructor (rows: map<string, Row>)
      ensures View() == Store(map[], rows)
    {
      keys := map[];
      this.rows := rows;
    }

    method Mark(k: Key, env: Env)
      modifies this`keys
      ensures keys == Marked(old(keys), k, env)
    {
      if env.marks {
        keys := keys[k := env.marked + Ttl(k.kind)];
      }
    }

    method UpdateFields(id: string, env: Env, elapsed: real, alerted: bool, escalated: bool, assignee: string)
      returns (raised: bool)
      modifies this`rows
      ensures raised == !env.dbOk
      ensures rows == if env.dbOk then Updated(old(rows), id, elapsed, alerted, escalated, assignee) else old(rows)
    {
      if !env.dbOk {
        return true;
      }
      if id in rows {
        rows := rows[id := Row(elapsed, alerted, escalated, if assignee != "" then assignee else rows[id].assignee)];
      }
      return false;
    }

    method CheckEmailSla(c: Check) returns (action: Action, raised: bool)
      modifies this
      ensures View() == Checked(old(View()), c)
      ensures action == Decide(old(keys), c) && raised == Raises(old(View()), c)
    {
      var e, env := c.email, c.env;
      var totalWindow := e.deadline - e.created;
      var elapsed := env.now - e.created;
      if totalWindow <= 0.0 {
        return ZeroWindow, false;
      }
      var pct := elapsed / totalWindow * 100.0;
      if pct >= 100.0 && !Sent(keys, Key(BreachKey, e.id), env) {
        action := BreachEscalated;
        Mark(Key(BreachKey, e.id), env);
        raised := UpdateFields(e.id, env, elapsed, true, true, env.lead);
      } else if pct >= 80.0 && !Sent(keys, Key(WarnKey, e.id), env) {
        action := Alert80Sent;
        Mark(Key(WarnKey, e.id), env);
        raised := UpdateFields(e.id, env, elapsed, true, false, "");
      } else {
        action := ElapsedUpdated;
        raised := UpdateFields(e.id, env, elapsed, e.alerted, e.escalated, "");
      }
    }

    /** One cycle over the open emails; `later` is the second clock reading, for the dashboard. */
    method CheckAllOpenEmails(run: seq<Check>, later: real) returns (summary: Summary, dashboard: seq<Tile>)
      modifies this
      ensures View() == After(old(View()), run)
      ensures summary == Tally(old(View()), run)
      ensures |dashboard| == |run|
      ensures forall i :: 0 <= i < |run| ==> dashboard[i] == TileOf(run[i].email, later)
    {
      var m := Summary(0, 0, 0, 0, 0);
      for i := 0 to |run|
        invariant View() == After(old(View()), run[..i])
        invariant m.(total := i) == Tally(old(View()), run[..i])
      {
        assert run[..i + 1][..i] == run[..i];
        var action, raised := CheckEmailSla(run[i]);
        if raised {
          m := m.(errors := m.errors + 1);
        } else {
          match action
          case Alert80Sent => m := m.(alerts80 := m.alerts80 + 1);
          case BreachEscalated => m := m.(breaches := m.breaches + 1);
          case ElapsedUpdated => m := m.(updated := m.updated + 1);
          case ZeroWindow =>
        }
      }
      assert run[..|run|] == run;
      summary := m.(total := |run|);
      dashboard := [];
      for i := 0 to |run|
        invariant |dashboard| == i
        invariant forall j :: 0 <= j < i ==> dashboard[j] == TileOf(run[j].email, later)
      {
        dashboard := dashboard + [TileOf(run[i].email, later)];
      }
    }
  }

  // ---------------------------------------------------------------------------
  // Percentages
  // ---------------------------------------------------------------------------

  lemma RatioIff(elapsed: real, window: real, c: real)
    requires window > 0.0
    ensures elapsed / window * 100.0 >= c <==> elapsed * 100.0 >= c * window
  {
    var q := elapsed / window;
    assert q * window == elapsed;
    if q * 100.0 >= c {
      assert q * 100.0 * window >= c * window;
    } else {
      assert q * 100.0 * window < c * window;
    }
  }

  /** The percentage test is a test on the clock. */
  lemma BreachIffPastDeadline(e: Email, now: real)
    requires Window(e) > 0.0
    ensures Pct(e, now) >= 100.0 <==> now >= e.deadline
  {
    RatioIff(now - e.created, Window(e), 100.0);
  }

  lemma PctGrows(e: Email, now: real, later: real, c: real)
    requires Window(e) > 0.0 && now <= later && Pct(e, now) >= c
    ensures Pct(e, later) >= c
  {
    RatioIff(now - e.created, Window(e), c);
    RatioIff(later - e.created, Window(e), c);
  }

  lemma TruncTenths(x: real)
    ensures x >= 0.0 ==> Trunc1(x) * 10.0 == (x * 10.0).Floor as real
    ensures x < 0.0 ==> Trunc1(x) * 10.0 == -((-x * 10.0).Floor as real)
  {
  }

  lemma WholeIsItsFloor(f: int)
    ensures (f as real).Floor == f
  {
  }

  lemma TruncErr(x: real)
    ensures if x >= 0.0 then 0.0 <= x - Trunc1(x) < 0.1 else -0.1 < x - Trunc1(x) <= 0.0
    ensures (Trunc1(x) * 10.0).Floor as real == Trunc1(x) * 10.0
  {
    TruncTenths(x);
    WholeIsItsFloor(if x >= 0.0 then (x * 10.0).Floor else -((-x * 10.0).Floor));
  }

  /** One-decimal truncation keeps every positive whole threshold, goes toward zero by less
      than 0.1, and leaves a whole number of tenths. */
  lemma TruncationKeepsThresholds(x: real, c: int)
    requires c > 0
    ensures Trunc1(x) >= c as real <==> x >= c as real
    ensures if x >= 0.0 then 0.0 <= x - Trunc1(x) < 0.1 else -0.1 < x - Trunc1(x) <= 0.0
    ensures (Trunc1(x) * 10.0).Floor as real == Trunc1(x) * 10.0
  {
    TruncTenths(x);
    TruncErr(x);
    if x >= 0.0 {
      var f := (x * 10.0).Floor;
      assert f >= 10 * c <==> x * 10.0 >= (10 * c) as real;
    }
  }

  /** A tile names its email and shows its percentage to one decimal; an empty window is shown
      as safe. */
  lemma TileShows(e: Email, now: real)
    ensures TileOf(e, now).id == e.id
    ensures Window(e) <= 0.0 ==> TileOf(e, now).status == Safe && TileOf(e, now).pct == 0.0
    ensures Window(e) > 0.0 ==>
      && -0.1 < Pct(e, now) - TileOf(e, now).pct < 0.1
      && (TileOf(e, now).status == Breach <==> now >= e.deadline)
      && (TileOf(e, now).status != Safe <==> (now - e.created) * 100.0 >= 80.0 * Window(e))
  {
    if Window(e) > 0.0 {
      TruncationKeepsThresholds(Pct(e, now), 100);
      BreachIffPastDeadline(e, now);
      RatioIff(now - e.created, Window(e), 80.0);
    }
  }

  /** The dashboard agrees with the checker of the same cycle: what was escalated is shown as
      a breach, what was warned as at risk or a breach, and the rounded percentage shown is
      on the same side of both thresholds as the status. */
  lemma DashboardAgrees(keys: map<Key, real>, c: Check, later: real)
    requires c.env.now <= later && Window(c.email) > 0.0
    ensures Decide(keys, c) == BreachEscalated ==> TileOf(c.email, later).status == Breach
    ensures Decide(keys, c) == Alert80Sent ==> TileOf(c.email, later).status != Safe
    ensures TileOf(c.email, later).status == Breach <==> TileOf(c.email, later).pct >= 100.0
    ensures TileOf(c.email, later).status != Safe <==> TileOf(c.email, later).pct >= 80.0
  {
    if Pct(c.email, c.env.now) >= 100.0 {
      PctGrows(c.email, c.env.now, later, 100.0);
    }
    if Pct(c.email, c.env.now) >= 80.0 {
      PctGrows(c.email, c.env.now, later, 80.0);
    }
    TruncationKeepsThresholds(Pct(c.email, later), 100);
    TruncationKeepsThresholds(Pct(c.email, later), 80);
  }

  ghost function Skipped(run: seq<Check>): nat
    decreases |run|
  {
    if run == [] then 0
    else Skipped(run[..|run| - 1]) + if Window(run[|run| - 1].email) <= 0.0 then 1 else 0
  }

  /** Every open email is counted once, as an alert, a breach, an update or an error, unless
      it is skipped for its empty window. */
  lemma {:induction false} SummaryAddsUp(s: Store, run: seq<Check>)
    ensures Tally(s, run).total == |run|
    ensures Tally(s, run).alerts80 + Tally(s, run).breaches + Tally(s, run).updated + Tally(s, run).errors
         == |run| - Skipped(run)
    decreases |run|
  {
    if run != [] {
      var front, c := run[..|run| - 1], run[|run| - 1];
      SummaryAddsUp(s, front);
      var t := After(s, front);
      assert Decide(t.keys, c) == ZeroWindow <==> Window(c.email) <= 0.0;
      assert Tally(s, run) == Counted(Tally(s, front), t, c).(total := Tally(s, front).total + 1);
    }
  }

  /** The i-th check of a run ends with an action and a database that takes the update. */
  ghost predicate EndsAs(s: Store, run: seq<Check>, i: int, action: Action) {
    0 <= i < |run| && run[i].env.dbOk && Decide(After(s, run[..i]).keys, run[i]) == action
  }

  ghost function Acted(s: Store, run: seq<Check>, action: Action): set<int> {
    set i | 0 <= i < |run| && EndsAs(s, run, i, action)
  }

  ghost function Refused(run: seq<Check>): set<int> {
    set i | 0 <= i < |run| && !run[i].env.dbOk && Window(run[i].email) > 0.0
  }

  lemma SameEnding(s: Store, run: seq<Check>, n: nat, i: int, action: Action)
    requires n <= |run| && i < n
    ensures EndsAs(s, run, i, action) <==> EndsAs(s, run[..n], i, action)
  {
    if 0 <= i {
      assert run[..n][..i] == run[..i];
    }
  }

  lemma ActedStep(s: Store, run: seq<Check>, action: Action)
    requires run != []
    ensures
      var n := |run| - 1;
      |Acted(s, run, action)| == |Acted(s, run[..n], action)| + if EndsAs(s, run, n, action) then 1 else 0
  {
    var n := |run| - 1;
    var before, last := Acted(s, run[..n], action), if EndsAs(s, run, n, action) then {n} else {};
    forall i | 0 <= i < n
      ensures EndsAs(s, run, i, action) <==> EndsAs(s, run[..n], i, action)
    {
      SameEnding(s, run, n, i, action);
    }
    assert Acted(s, run, action) == before + last;
  }

  lemma RefusedStep(run: seq<Check>)
    requires run != []
    ensures
      var n := |run| - 1;
      |Refused(run)| == |Refused(run[..n])| + if !run[n].env.dbOk && Window(run[n].email) > 0.0 then 1 else 0
  {
    var n := |run| - 1;
    var before := Refused(run[..n]);
    assert n !in before;
    if n in Refused(run) {
      assert Refused(run) == before + {n};
    } else {
      assert Refused(run) == before;
    }
  }

  /** Each counter of the summary is the number of checks that ended its way. */
  lemma {:induction false} SummaryCounts(s: Store, run: seq<Check>)
    ensures Tally(s, run).breaches == |Acted(s, run, BreachEscalated)|
    ensures Tally(s, run).alerts80 == |Acted(s, run, Alert80Sent)|
    ensures Tally(s, run).updated == |Acted(s, run, ElapsedUpdated)|
    ensures Tally(s, run).errors == |Refused(run)|
    decreases |run|
  {
    if run != [] {
      var front, c := run[..|run| - 1], run[|run| - 1];
      SummaryCounts(s, front);
      ActedStep(s, run, BreachEscalated);
      ActedStep(s, run, Alert80Sent);
      ActedStep(s, run, ElapsedUpdated);
      RefusedStep(run);
      SkipsIff(After(s, front).keys, c);
      assert Tally(s, run) == Counted(Tally(s, front), After(s, front), c).(total := Tally(s, front).total + 1);
    }
  }

  lemma SkipsIff(keys: map<Key, real>, c: Check)
    ensures Decide(keys, c) == ZeroWindow <==> Window(c.email) <= 0.0
  {
  }

  // ---------------------------------------------------------------------------
  // What a check leaves behind
  // ---------------------------------------------------------------------------

  /** A check warns exactly at 80 % of a non-empty window or later, with no live warning key
      seen, unless it escalates instead. */
  lemma WarnsIff(keys: map<Key, real>, c: Check)
    ensures Decide(keys, c) == Alert80Sent <==>
            && Window(c.email) > 0.0
            && (c.env.now - c.email.created) * 100.0 >= 80.0 * Window(c.email)
            && !Sent(keys, Key(WarnKey, c.email.id), c.env)
            && Decide(keys, c) != BreachEscalated
  {
    if Window(c.email) > 0.0 {
      RatioIff(c.env.now - c.email.created, Window(c.email), 80.0);
    }
  }

  /** The row of the checked email: an escalation hands it to the team-lead queue, if there is
      one, and marks it; a warning marks it as alerted and not escalated; any other check keeps
      both marks. All three set the elapsed time, and only an escalation the assignee. */
  lemma RowAfterCheck(s: Store, c: Check)
    requires c.env.dbOk && c.email.id in s.rows && Window(c.email) > 0.0
    ensures c.email.id in Checked(s, c).rows
    ensures
      var was, row := s.rows[c.email.id], Checked(s, c).rows[c.email.id];
      && row.elapsed == c.env.now - c.email.created
      && (Decide(s.keys, c) == BreachEscalated ==> row.alerted && row.escalated)
      && (Decide(s.keys, c) == BreachEscalated && c.env.lead != "" ==> row.assignee == c.env.lead)
      && (Decide(s.keys, c) != BreachEscalated || c.env.lead == "" ==> row.assignee == was.assignee)
      && (Decide(s.keys, c) == Alert80Sent ==> row.alerted && !row.escalated)
      && (Decide(s.keys, c) == ElapsedUpdated ==> row.alerted == c.email.alerted && row.escalated == c.email.escalated)
  {
  }

  /** No check touches another email's row, adds or removes a row, or changes any row when the
      window is empty or the database refuses. */
  lemma OtherRowsStay(s: Store, c: Check, id: string)
    ensures Checked(s, c).rows.Keys == s.rows.Keys
    ensures id in s.rows && id != c.email.id ==> Checked(s, c).rows[id] == s.rows[id]
    ensures !c.env.dbOk || Window(c.email) <= 0.0 ==> Checked(s, c).rows == s.rows
  {
  }

  /** The keys: an escalation sets the breach key of its email for an hour and a warning the
      warning key for half an hour, if Redis answers; nothing else is set. */
  lemma KeysAfterCheck(s: Store, c: Check, k: Key)
    ensures Decide(s.keys, c) == BreachEscalated && c.env.marks && k == Key(BreachKey, c.email.id) ==>
              k in Checked(s, c).keys && Checked(s, c).keys[k] == c.env.marked + 3600.0
    ensures Decide(s.keys, c) == Alert80Sent && c.env.marks && k == Key(WarnKey, c.email.id) ==>
              k in Checked(s, c).keys && Checked(s, c).keys[k] == c.env.marked + 1800.0
    ensures !(c.env.marks && k.id == c.email.id && Alerts(Decide(s.keys, c), k.kind)) ==>
              (k in Checked(s, c).keys <==> k in s.keys) && (k in s.keys ==> Checked(s, c).keys[k] == s.keys[k])
  {
  }

  // ---------------------------------------------------------------------------
  // Alert spacing
  // ---------------------------------------------------------------------------

  /** One worker: each check's instants are ordered and checks do not overlap. */
  ghost predicate OneWorker(run: seq<Check>) {
    && (forall i :: 0 <= i < |run| ==> run[i].env.now <= run[i].env.asked <= run[i].env.sent <= run[i].env.marked)
    && (forall i, j :: 0 <= i < j < |run| ==> run[i].env.marked <= run[j].env.now)
  }

  ghost predicate RedisUp(run: seq<Check>) {
    forall i :: 0 <= i < |run| ==> run[i].env.asks && run[i].env.marks
  }

  predicate Alerts(action: Action, kind: Kind) {
    match kind
    case BreachKey => action == BreachEscalated
    case WarnKey => action == Alert80Sent
  }

  /** The instants at which alerts of one kind went out for one email. */
  ghost function AlertTimes(s: Store, run: seq<Check>, k: Key): seq<real>
    decreases |run|
  {
    if run == [] then []
    else
      var front, c := run[..|run| - 1], run[|run| - 1];
      AlertTimes(s, front, k) +
      if c.email.id == k.id && Alerts(Decide(After(s, front).keys, c), k.kind) then [c.env.sent] else []
  }

  /** What a key says about the alerts sent so far. */
  ghost predicate Guards(keys: map<Key, real>, times: seq<real>, k: Key, till: real) {
    && Ordered(times) && Spaced(times, 1, Ttl(k.kind))
    && (forall i :: 0 <= i < |times| ==> times[i] <= till)
    && (forall i :: 0 <= i < |times| ==> k in keys && times[i] + Ttl(k.kind) <= keys[k])
  }

  lemma AlertKeepsGuard(keys: map<Key, real>, times: seq<real>, k: Key, c: Check)
    requires Guards(keys, times, k, c.env.now)
    requires c.env.now <= c.env.asked <= c.env.sent <= c.env.marked && c.env.asks && c.env.marks
    requires c.email.id == k.id && Alerts(Decide(keys, c), k.kind)
    ensures Guards(KeysAfter(keys, c), times + [c.env.sent], k, c.env.marked)
  {
    assert !Sent(keys, k, c.env);
    assert KeysAfter(keys, c) == keys[k := c.env.marked + Ttl(k.kind)];
    AppendSpaced(times, 1, Ttl(k.kind), c.env.sent);
  }

  lemma SilenceKeepsGuard(keys: map<Key, real>, times: seq<real>, k: Key, c: Check)
    requires Guards(keys, times, k, c.env.now)
    requires c.env.now <= c.env.marked && !(c.email.id == k.id && Alerts(Decide(keys, c), k.kind))
    ensures Guards(KeysAfter(keys, c), times, k, c.env.marked)
  {
    assert k in keys ==> k in KeysAfter(keys, c) && KeysAfter(keys, c)[k] == keys[k];
  }

  lemma CheckKeepsGuard(keys: map<Key, real>, times: seq<real>, k: Key, c: Check)
    requires Guards(keys, times, k, c.env.now)
    requires c.env.now <= c.env.asked <= c.env.sent <= c.env.marked && c.env.asks && c.env.marks
    ensures
      var alert := c.email.id == k.id && Alerts(Decide(keys, c), k.kind);
      Guards(KeysAfter(keys, c), if alert then times + [c.env.sent] else times, k, c.env.marked)
  {
    if c.email.id == k.id && Alerts(Decide(keys, c), k.kind) {
      AlertKeepsGuard(keys, times, k, c);
    } else {
      SilenceKeepsGuard(keys, times, k, c);
    }
  }

  lemma {:induction false} RunKeepsGuard(s: Store, run: seq<Check>, k: Key, till: real)
    requires OneWorker(run) && RedisUp(run)
    requires forall i :: 0 <= i < |run| ==> run[i].env.marked <= till
    ensures Guards(After(s, run).keys, AlertTimes(s, run, k), k, till)
    decreases |run|
  {
    if run != [] {
      var front, c := run[..|run| - 1], run[|run| - 1];
      RunKeepsGuard(s, front, k, c.env.now);
      CheckKeepsGuard(After(s, front).keys, AlertTimes(s, front, k), k, c);
      assert AlertTimes(s, front, k) + [] == AlertTimes(s, front, k);
    }
  }

  /** Over every run of one worker with Redis up, whatever keys it finds there, breach alerts for one email are at least
      3600 s apart and warnings at least 1800 s apart, so a span of T seconds holds at most
      floor(T / 3600) + 1 breach alerts, and likewise for warnings. */
  lemma AlertSpacing(s: Store, run: seq<Check>, k: Key, from: real, span: real)
    requires OneWorker(run) && RedisUp(run) && span >= 0.0
    ensures Spaced(AlertTimes(s, run, k), 1, if k.kind == BreachKey then 3600.0 else 1800.0)
    ensures
      var h := AlertTimes(s, run, k);
      |set i | 0 <= i < |h| && from <= h[i] <= from + span| <= (span / Ttl(k.kind)).Floor + 1
  {
    var till := if run == [] then 0.0 else run[|run| - 1].env.marked;
    RunKeepsGuard(s, run, k, till);
    AtMostPerSpan(AlertTimes(s, run, k), Ttl(k.kind), from, span);
  }

  /** With Redis down the code fails open: past the deadline every check escalates. */
  lemma FailsOpen(keys: map<Key, real>, c: Check)
    requires Window(c.email) > 0.0 && !c.env.asks && c.env.now >= c.email.deadline
    ensures Decide(keys, c) == BreachEscalated
  {
    BreachIffPastDeadline(c.email, c.env.now);
  }

  // ---------------------------------------------------------------------------
  // Promptness
  // ---------------------------------------------------------------------------

  /** Every check of `e.id` in the run sees the window of `e`. */
  ghost predicate SameWindow(run: seq<Check>, e: Email) {
    forall i :: 0 <= i < |run| && run[i].email.id == e.id ==>
      run[i].email.created == e.created && run[i].email.deadline == e.deadline
  }

  ghost predicate Before(run: seq<Check>, id: string, t: real) {
    forall i :: 0 <= i < |run| && run[i].email.id == id ==> run[i].env.now < t
  }

  /** When a key expires, if it was ever set. */
  ghost function Expiry(s: Store, k: Key): Option<real> {
    if k in s.keys then Some(s.keys[k]) else None
  }

  /** No live breach key of the email at the instant `t`. */
  ghost predicate NotLive(s: Store, id: string, t: real) {
    Key(BreachKey, id) in s.keys ==> s.keys[Key(BreachKey, id)] <= t
  }

  /** Checks before the deadline do not touch the breach key. */
  lemma {:induction false} NoKeyBeforeDeadline(s: Store, run: seq<Check>, e: Email)
    requires SameWindow(run, e) && Before(run, e.id, e.deadline)
    ensures Expiry(After(s, run), Key(BreachKey, e.id)) == Expiry(s, Key(BreachKey, e.id))
    decreases |run|
  {
    if run != [] {
      var front, c := run[..|run| - 1], run[|run| - 1];
      NoKeyBeforeDeadline(s, front, e);
      if c.email.id == e.id && Window(c.email) > 0.0 {
        BreachIffPastDeadline(c.email, c.env.now);
      }
    }
  }

  /** With no breach key still live from before, the first check at or after the deadline escalates,
      whatever Redis does. */
  lemma FirstBreachIsPrompt(s: Store, run: seq<Check>, c: Check)
    requires NotLive(s, c.email.id, c.env.asked) && SameWindow(run, c.email) && Before(run, c.email.id, c.email.deadline)
    requires Window(c.email) > 0.0 && c.env.now >= c.email.deadline
    ensures Decide(After(s, run).keys, c) == BreachEscalated
  {
    NoKeyBeforeDeadline(s, run, c.email);
    BreachIffPastDeadline(c.email, c.env.now);
  }

  /** Every check of the email gets an answer from Redis, before `x`. */
  ghost predicate Calm(run: seq<Check>, id: string, x: real) {
    forall i :: 0 <= i < |run| && run[i].email.id == id ==> run[i].env.asks && run[i].env.asked < x
  }

  /** While the key set by a breach alert lives, no check of that email escalates again. */
  lemma {:induction false} KeyHolds(s: Store, k: Key, expiry: real, run: seq<Check>)
    requires k.kind == BreachKey && k in s.keys && s.keys[k] == expiry
    requires Calm(run, k.id, expiry)
    ensures k in After(s, run).keys && After(s, run).keys[k] == expiry
    ensures AlertTimes(s, run, k) == []
    decreases |run|
  {
    if run != [] {
      KeyHolds(s, k, expiry, run[..|run| - 1]);
    }
  }

  /** A check escalates exactly when its window is not empty, the deadline has passed and the
      lookup does not find a live key. */
  lemma EscalatesIff(keys: map<Key, real>, c: Check)
    ensures Decide(keys, c) == BreachEscalated <==>
            Window(c.email) > 0.0 && c.env.now >= c.email.deadline && !Sent(keys, Key(BreachKey, c.email.id), c.env)
  {
    if Window(c.email) > 0.0 {
      BreachIffPastDeadline(c.email, c.env.now);
    }
  }

  lemma BreachSetsKey(s: Store, c: Check)
    requires Decide(s.keys, c) == BreachEscalated && c.env.marks
    ensures Key(BreachKey, c.email.id) in Checked(s, c).keys
    ensures Checked(s, c).keys[Key(BreachKey, c.email.id)] == c.env.marked + 3600.0
  {
  }

  /** After a breach alert of `c`, the first check of that email that asks once the key has
      expired escalates again, and nothing in between does. */
  lemma NextBreachIsPrompt(s: Store, c: Check, run: seq<Check>, c': Check)
    requires Decide(s.keys, c) == BreachEscalated && c.env.marks
    requires c'.email.id == c.email.id && c'.email.created == c.email.created && c'.email.deadline == c.email.deadline
    requires c.env.now <= c'.env.now
    requires Calm(run, c.email.id, c.env.marked + 3600.0) && c'.env.asked >= c.env.marked + 3600.0
    ensures AlertTimes(Checked(s, c), run, Key(BreachKey, c.email.id)) == []
    ensures Decide(After(Checked(s, c), run).keys, c') == BreachEscalated
  {
    BreachSetsKey(s, c);
    KeyHolds(Checked(s, c), Key(BreachKey, c.email.id), c.env.marked + 3600.0, run);
    EscalatesIff(s.keys, c);
    EscalatesIff(After(Checked(s, c), run).keys, c');
  }

  // --- over whole runs --------------------------------------------------------

  ghost predicate Checks(run: seq<Check>, id: string, i: int) {
    0 <= i < |run| && run[i].email.id == id
  }

  /** The instants of the checks that a gap is measured on. */
  ghost predicate Instants(run: seq<Check>, at: seq<real>) {
    |at| == |run| && forall i, j :: 0 <= i <= j < |at| ==> at[i] <= at[j]
  }

  /** A check of the email that is not the last is followed by another at most `d` later. */
  ghost predicate Dense(run: seq<Check>, id: string, at: seq<real>, d: real)
    requires |at| == |run|
  {
    forall i, j :: BothCheck(run, id, i, j) ==> exists k :: i < k && Checks(run, id, k) && at[k] <= at[i] + d
  }

  ghost predicate BothCheck(run: seq<Check>, id: string, i: int, j: int) {
    Checks(run, id, i) && Checks(run, id, j) && i < j
  }

  /** The first check at or after the instant `x` is less than `d` late. */
  lemma FirstFrom(run: seq<Check>, id: string, at: seq<real>, d: real, lo: nat, hi: nat, x: real) returns (c: nat, prev: nat)
    requires Instants(run, at) && Dense(run, id, at, d)
    requires lo < hi && Checks(run, id, lo) && Checks(run, id, hi) && at[lo] < x <= at[hi]
    ensures lo <= prev < c <= hi && Checks(run, id, c) && Checks(run, id, prev)
    ensures x <= at[c] <= at[prev] + d && at[prev] < x
    ensures forall i :: lo <= i < c && Checks(run, id, i) ==> at[i] < x
  {
    c, prev := lo + 1, lo;
    while !(Checks(run, id, c) && x <= at[c])
      invariant lo <= prev < c <= hi && Checks(run, id, prev)
      invariant forall i :: lo <= i < c && Checks(run, id, i) ==> at[i] < x && i <= prev
      decreases hi - c
    {
      if Checks(run, id, c) {
        prev := c;
      }
      c := c + 1;
    }
    assert BothCheck(run, id, prev, c);
    var k :| prev < k && Checks(run, id, k) && at[k] <= at[prev] + d;
    assert c <= k;
  }

  ghost function Nows(run: seq<Check>): seq<real> {
    seq(|run|, i requires 0 <= i < |run| => run[i].env.now)
  }

  ghost function Lookups(run: seq<Check>): seq<real> {
    seq(|run|, i requires 0 <= i < |run| => run[i].env.asked)
  }

  lemma InstantsOfOneWorker(run: seq<Check>)
    requires OneWorker(run)
    ensures Instants(run, Nows(run)) && Instants(run, Lookups(run))
  {
  }

  /** The i-th check of the run escalates. */
  ghost predicate EscalatesAt(s: Store, run: seq<Check>, i: int) {
    0 <= i < |run| && Decide(After(s, run[..i]).keys, run[i]) == BreachEscalated
  }

  /** Over every run of one worker whose checks of the email are at most `d` apart and reach
      over its deadline: some check escalates less than `d` after the deadline, and none
      before, whatever Redis does. */
  lemma FirstBreachInEveryRun(s: Store, run: seq<Check>, e: Email, d: real, lo: nat, hi: nat)
    requires NotLive(s, e.id, e.deadline) && OneWorker(run) && SameWindow(run, e) && Window(e) > 0.0
    requires Dense(run, e.id, Nows(run), d)
    requires Checks(run, e.id, lo) && Checks(run, e.id, hi) && run[lo].env.now < e.deadline <= run[hi].env.now
    ensures exists c :: EscalatesAt(s, run, c) && Checks(run, e.id, c) && e.deadline <= run[c].env.now < e.deadline + d
                        && Before(run[..c], e.id, e.deadline)
    ensures forall i :: Checks(run, e.id, i) && EscalatesAt(s, run, i) ==> e.deadline <= run[i].env.now
  {
    var at := Nows(run);
    InstantsOfOneWorker(run);
    var c, prev := FirstFrom(run, e.id, at, d, lo, hi, e.deadline);
    forall i | 0 <= i < c && run[..c][i].email.id == e.id
      ensures run[i].env.now < e.deadline
    {
      assert Checks(run, e.id, i);
      assert i < lo ==> at[i] <= at[lo];
    }
    FirstBreachIsPrompt(s, run[..c], run[c]);
    assert EscalatesAt(s, run, c);
    forall i | Checks(run, e.id, i) && EscalatesAt(s, run, i)
      ensures e.deadline <= run[i].env.now
    {
      EscalatesIff(After(s, run[..i]).keys, run[i]);
    }
  }

  lemma {:induction false} AfterConcat(s: Store, a: seq<Check>, b: seq<Check>)
    ensures After(s, a + b) == After(After(s, a), b)
    decreases |b|
  {
    if b == [] {
      assert a + b == a;
    } else {
      var n := |b| - 1;
      AfterConcat(s, a, b[..n]);
      assert (a + b)[..|a + b| - 1] == a + b[..n];
    }
  }

  lemma AfterSplit(s: Store, run: seq<Check>, a: nat, c: nat)
    requires a < c <= |run|
    ensures After(s, run[..c]) == After(Checked(After(s, run[..a]), run[a]), run[a + 1..c])
  {
    AfterConcat(s, run[..a + 1], run[a + 1..c]);
    assert run[..a + 1] + run[a + 1..c] == run[..c];
    assert run[..a + 1][..a] == run[..a];
  }

  /** The checks of the email between two others ask before `x`. */
  lemma CalmBetween(run: seq<Check>, id: string, a: nat, c: nat, x: real)
    requires a < c <= |run| && RedisUp(run)
    requires forall j :: a < j < c && Checks(run, id, j) ==> run[j].env.asked < x
    ensures Calm(run[a + 1..c], id, x)
  {
    var between := run[a + 1..c];
    forall i | 0 <= i < |between| && between[i].email.id == id
      ensures between[i].env.asks && between[i].env.asked < x
    {
      assert between[i] == run[a + 1 + i];
      assert Checks(run, id, a + 1 + i);
    }
  }

  /** Over every run of one worker with Redis up whose lookups for the email are at most `d`
      apart: after an escalation the next one comes less than 3600 s + `d` after the key was
      set, provided the run goes on that long, and none comes before the key expires. */
  lemma NextBreachInEveryRun(s: Store, run: seq<Check>, e: Email, d: real, a: nat, hi: nat)
    requires OneWorker(run) && RedisUp(run) && SameWindow(run, e)
    requires Dense(run, e.id, Lookups(run), d)
    requires Checks(run, e.id, a) && EscalatesAt(s, run, a) && Checks(run, e.id, hi) && a < hi
    requires run[hi].env.asked >= run[a].env.marked + 3600.0
    ensures exists c :: a < c && EscalatesAt(s, run, c) && Checks(run, e.id, c)
                        && run[a].env.marked + 3600.0 <= run[c].env.asked < run[a].env.marked + 3600.0 + d
                        && NoneBetween(s, run, e.id, a, c)
  {
    var x := run[a].env.marked + 3600.0;
    InstantsOfOneWorker(run);
    var c, prev := FirstFrom(run, e.id, Lookups(run), d, a, hi, x);
    CalmBetween(run, e.id, a, c, x);
    NextBreachIsPrompt(After(s, run[..a]), run[a], run[a + 1..c], run[c]);
    AfterSplit(s, run, a, c);
    forall i | a < i < c && Checks(run, e.id, i)
      ensures !EscalatesAt(s, run, i)
    {
      KeyStillThere(s, run, e.id, a, i);
    }
    assert NoneBetween(s, run, e.id, a, c);
  }

  ghost predicate NoneBetween(s: Store, run: seq<Check>, id: string, a: int, c: int) {
    forall i :: a < i < c && Checks(run, id, i) ==> !EscalatesAt(s, run, i)
  }

  lemma KeyStillThere(s: Store, run: seq<Check>, id: string, a: nat, i: nat)
    requires RedisUp(run) && Checks(run, id, a) && Checks(run, id, i) && a < i && EscalatesAt(s, run, a)
    requires forall j :: a < j <= i && Checks(run, id, j) ==> run[j].env.asked < run[a].env.marked + 3600.0
    requires run[i].env.asked < run[a].env.marked + 3600.0
    ensures !EscalatesAt(s, run, i)
  {
    var here := After(s, run[..a]);
    BreachSetsKey(here, run[a]);
    CalmBetween(run, id, a, i, run[a].env.marked + 3600.0);
    KeyHolds(Checked(here, run[a]), Key(BreachKey, id), run[a].env.marked + 3600.0, run[a + 1..i]);
    AfterSplit(s, run, a, i);
  }

  // ---------------------------------------------------------------------------
  // The escalation mark
  // ---------------------------------------------------------------------------

  /** A check clears the mark of an escalated email exactly when it sends an 80 % warning,
      which it also does after the deadline while the breach key lives. */
  lemma EscalationClearedIffWarned(s: Store, c: Check)
    requires c.email.id in s.rows && s.rows[c.email.id].escalated && c.email.escalated && c.env.dbOk
    ensures Checked(s, c).rows[c.email.id].escalated <==>
            !(&& Window(c.email) > 0.0
              && Pct(c.email, c.env.now) >= 80.0
              && !Sent(s.keys, Key(WarnKey, c.email.id), c.env)
              && (Pct(c.email, c.env.now) >= 100.0 ==> Sent(s.keys, Key(BreachKey, c.email.id), c.env)))
  {
  }

  /** So escalation is not monotone: the first cycle after a breach, five minutes later,
      finds the breach key alive and no warning key, warns, and clears the mark. */
  lemma EscalationIsNotMonotone(s: Store, e: Email, lead: string)
    requires NotLive(s, e.id, e.deadline) && Key(WarnKey, e.id) !in s.keys && e.id in s.rows && Window(e) > 0.0
    ensures
      var t := e.deadline;
      var c1 := Check(e, Env(t, t, t, t, true, true, true, lead));
      var s1 := Checked(s, c1);
      var c2 := Check(e.(alerted := true, escalated := true),
                      Env(t + 300.0, t + 300.0, t + 300.0, t + 300.0, true, true, true, lead));
      e.id in s1.rows && s1.rows[e.id].escalated &&
      e.id in Checked(s1, c2).rows && !Checked(s1, c2).rows[e.id].escalated
  {
    var t := e.deadline;
    var c1 := Check(e, Env(t, t, t, t, true, true, true, lead));
    BreachIffPastDeadline(e, t);
    assert Decide(s.keys, c1) == BreachEscalated;
    var s1 := Checked(s, c1);
    var later := e.(alerted := true, escalated := true);
    var c2 := Check(later, Env(t + 300.0, t + 300.0, t + 300.0, t + 300.0, true, true, true, lead));
    assert s1.keys == s.keys[Key(BreachKey, e.id) := t + 3600.0];
    PctGrows(later, t, t + 300.0, 100.0) by {
      BreachIffPastDeadline(later, t);
    }
    assert Decide(s1.keys, c2) == Alert80Sent;
  }
}
