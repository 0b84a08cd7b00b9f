/** The dynamic rules engine (utils/rules_engine.py): the active rules are sorted by priority
    and the first that matches decides. */
module Rules {
  import opened StableSort

  /** A value as the operators use it: its lower-cased text, its number if it converts, its
      lower-cased items if it can be iterated. */
  datatype Value = Value(text: string, number: Option<real>, items: Option<seq<string>>)

  datatype Operator = Is | IsNot | In | NotIn | Contains | StartsWith | GreaterThan | LessThan | Unknown

  datatype Condition = Condition(field: string, operator: Operator, expected: Value)

  /** `Raises` is a value an operator cannot handle. */
  datatype Verdict = Matches | Fails | Raises

  function Told(b: bool): Verdict {
    if b then Matches else Fails
  }

  predicate Substring(needle: string, hay: string) {
    exists i :: 0 <= i <= |hay| - |needle| && needle <= hay[i..]
  }

  function MatchCondition(c: Condition, ctx: map<string, Value>): Verdict {
    if c.field !in ctx then Fails
    else
      var actual := ctx[c.field];
      match c.operator
      case Is => Told(actual.text == c.expected.text)
      case IsNot => Told(actual.text != c.expected.text)
      case In => if c.expected.items == None then Raises else Told(actual.text in c.expected.items.value)
      case NotIn => if c.expected.items == None then Raises else Told(actual.text !in c.expected.items.value)
      case Contains => Told(Substring(c.expected.text, actual.text))
      case StartsWith => Told(c.expected.text <= actual.text)
      case GreaterThan =>
        if actual.number == None || c.expected.number == None then Raises
        else Told(actual.number.value > c.expected.number.value)
      case LessThan =>
        if actual.number == None || c.expected.number == None then Raises
        else Told(actual.number.value < c.expected.number.value)
      case Unknown => Fails
  }

  datatype Rule = Rule(name: string, active: bool, priority: string, mode: string, conditions: seq<Condition>,
                       actions: seq<string>, stop: bool)

  /** All conditions are evaluated before they are combined; no condition at all matches in
      mode "all" and fails in any other mode. */
  function Judge(r: Rule, ctx: map<string, Value>): Verdict {
    if exists i :: 0 <= i < |r.conditions| && MatchCondition(r.conditions[i], ctx) == Raises then Raises
    else if r.mode == "all" then
      Told(forall i :: 0 <= i < |r.conditions| ==> MatchCondition(r.conditions[i], ctx) == Matches)
    else Told(exists i :: 0 <= i < |r.conditions| && MatchCondition(r.conditions[i], ctx) == Matches)
  }

  function Rank(r: Rule): int {
    if r.priority == "high" then 0 else if r.priority == "medium" then 1 else if r.priority == "low" then 2 else 3
  }

  /** The rule stops the scan: it is active and its conditions match or raise. */
  predicate Decisive(r: Rule, ctx: map<string, Value>) {
    r.active && Judge(r, ctx) != Fails
  }

  datatype Answer = NoRule | Chosen(rule: Rule) | Error(rule: Rule)

  function IsActive(): Rule -> bool {
    (r: Rule) => r.active
  }

  function Decides(ctx: map<string, Value>): Rule -> bool {
    (r: Rule) => Decisive(r, ctx)
  }

  /** Position `i` holds the decisive rule of least rank, earliest among ties. */
  ghost predicate Wins(rules: seq<Rule>, ctx: map<string, Value>, i: int) {
    Best(rules, Rank, Decides(ctx), i)
  }

  /** What the code scans: the first decisive rule of the sorted active rules. */
  function Scan(rules: seq<Rule>, ctx: map<string, Value>): Option<Rule> {
    First(Sort(Filter(rules, IsActive()), Rank), Decides(ctx))
  }

  /** The scan finds the best decisive rule, or nothing when there is none. */
  lemma ScanIsBest(rules: seq<Rule>, ctx: map<string, Value>)
    ensures Scan(rules, ctx) == None <==> forall i :: 0 <= i < |rules| ==> !Decisive(rules[i], ctx)
    ensures Scan(rules, ctx).Some? ==> exists i :: Wins(rules, ctx, i) && Scan(rules, ctx).value == rules[i]
  {
    SortCommutesWithFilter(rules, Rank, IsActive());
    FirstOfFilter(Sort(rules, Rank), IsActive(), Decides(ctx));
    FirstOfSortIsBest(rules, Rank, Decides(ctx));
    assert forall i :: 0 <= i < |rules| ==> Decides(ctx)(rules[i]) == Decisive(rules[i], ctx);
  }

  function AnswerOf(found: Option<Rule>, ctx: map<string, Value>): Answer {
    match found
    case None => NoRule
    case Some(r) => if Judge(r, ctx) == Raises then Error(r) else Chosen(r)
  }

  /** `evaluate`: the active rule of least priority rank that matches, earliest in the list
      among ties; no rule iff none matches; an error iff the best decisive rule raises. */
  method Evaluate(rules: seq<Rule>, ctx: map<string, Value>) returns (a: Answer)
    ensures a == AnswerOf(Scan(rules, ctx), ctx)
    ensures a == NoRule <==> forall i :: 0 <= i < |rules| && rules[i].active ==> Judge(rules[i], ctx) == Fails
    ensures a.Chosen? ==> exists i :: Wins(rules, ctx, i) && a.rule == rules[i] && Judge(rules[i], ctx) == Matches
    ensures a.Error? ==> exists i :: Wins(rules, ctx, i) && a.rule == rules[i] && Judge(rules[i], ctx) == Raises
  {
    var sorted := Sort(Filter(rules, IsActive()), Rank);
    ghost var p := Decides(ctx);
    FilterKeeps(rules, IsActive());
    SortOrders(Filter(rules, IsActive()), Rank);
    for i := 0 to |sorted|
      invariant First(sorted[i..], p) == First(sorted, p)
    {
      assert sorted[i] in multiset(sorted);
      assert IsActive()(sorted[i]) && p(sorted[i]) == Decisive(sorted[i], ctx);
      assert sorted[i..][1..] == sorted[i + 1..];
      var verdict := Judge(sorted[i], ctx);
      if verdict == Raises {
        AnswerIsBest(rules, ctx);
        return Error(sorted[i]);
      }
      if verdict == Matches {
        AnswerIsBest(rules, ctx);
        return Chosen(sorted[i]);
      }
    }
    AnswerIsBest(rules, ctx);
    return NoRule;
  }

  lemma AnswerIsBest(rules: seq<Rule>, ctx: map<string, Value>)
    ensures
      var a := AnswerOf(Scan(rules, ctx), ctx);
      && (a == NoRule <==> forall i :: 0 <= i < |rules| && rules[i].active ==> Judge(rules[i], ctx) == Fails)
      && (a.Chosen? ==> exists i :: Wins(rules, ctx, i) && a.rule == rules[i] && Judge(rules[i], ctx) == Matches)
      && (a.Error? ==> exists i :: Wins(rules, ctx, i) && a.rule == rules[i] && Judge(rules[i], ctx) == Raises)
  {
    ScanIsBest(rules, ctx);
    assert forall i :: 0 <= i < |rules| ==> (Decisive(rules[i], ctx) <==> rules[i].active && Judge(rules[i], ctx) != Fails);
    if Scan(rules, ctx).Some? {
      var i :| Wins(rules, ctx, i) && Scan(rules, ctx).value == rules[i];
      assert Decides(ctx)(rules[i]);
    }
  }

  lemma WinnerIsUnique(rules: seq<Rule>, ctx: map<string, Value>, i: int, j: int)
    requires Wins(rules, ctx, i) && Wins(rules, ctx, j)
    ensures i == j
  {
    assert Decides(ctx)(rules[i]) && Decides(ctx)(rules[j]);
  }

  lemma WinnerIsScanned(rules: seq<Rule>, ctx: map<string, Value>, i: int)
    requires Wins(rules, ctx, i)
    ensures Scan(rules, ctx) == Some(rules[i])
  {
    ScanIsBest(rules, ctx);
    assert Decides(ctx)(rules[i]) && Decisive(rules[i], ctx);
    var j :| Wins(rules, ctx, j) && Scan(rules, ctx).value == rules[j];
    WinnerIsUnique(rules, ctx, i, j);
  }

  /** Only the winner matters: keep the winning rule, put before it any of the rules that were
      before it, and behind it any of the other rules, in any order and number, with any
      inactive or failing rules added anywhere; the answer is the same. So deleting,
      deactivating or moving back a rule that does not win changes nothing. */
  lemma OnlyTheWinnerMatters(before: seq<Rule>, winner: Rule, behind: seq<Rule>, ctx: map<string, Value>,
                             before': seq<Rule>, behind': seq<Rule>)
    requires Wins(before + [winner] + behind, ctx, |before|)
    requires forall r :: r in before' ==> r in before || !Decisive(r, ctx)
    requires forall r :: r in behind' ==> r in before || r in behind || !Decisive(r, ctx)
    ensures Scan(before' + [winner] + behind', ctx) == Scan(before + [winner] + behind, ctx) == Some(winner)
  {
    var rules, rules' := before + [winner] + behind, before' + [winner] + behind';
    assert rules[|before|] == winner && rules'[|before'|] == winner;
    forall r | r in before && Decisive(r, ctx)
      ensures Rank(winner) < Rank(r)
    {
      var j :| 0 <= j < |before| && before[j] == r;
      assert rules[j] == r;
    }
    forall r | r in behind && Decisive(r, ctx)
      ensures Rank(winner) <= Rank(r)
    {
      var j :| 0 <= j < |behind| && behind[j] == r;
      assert rules[|before| + 1 + j] == r;
    }
    forall j | 0 <= j < |rules'| && Decisive(rules'[j], ctx)
      ensures Rank(winner) < Rank(rules'[j]) || (Rank(winner) == Rank(rules'[j]) && |before'| <= j)
    {
      if j < |before'| {
        assert rules'[j] in before';
      } else if j > |before'| {
        assert rules'[j] == behind'[j - |before'| - 1];
        assert rules'[j] in behind';
      }
    }
    assert Wins(rules', ctx, |before'|);
    WinnerIsScanned(rules, ctx, |before|);
    WinnerIsScanned(rules', ctx, |before'|);
  }

  // ---------------------------------------------------------------------------
  // Priorities
  // ---------------------------------------------------------------------------

  /** Some rule of this priority is decisive. */
  ghost predicate Offers(rules: seq<Rule>, ctx: map<string, Value>, priority: string) {
    exists j :: 0 <= j < |rules| && rules[j].priority == priority && Decisive(rules[j], ctx)
  }

  predicate Named(priority: string) {
    priority == "high" || priority == "medium" || priority == "low"
  }

  /** What the ranks mean: a decisive "high" rule is answered before any other, then a "medium"
      one, then a "low" one, and only then a rule of any other priority; among equal priorities
      the earliest. */
  lemma PriorityDecides(rules: seq<Rule>, ctx: map<string, Value>, i: int)
    requires Wins(rules, ctx, i)
    ensures Offers(rules, ctx, "high") ==> rules[i].priority == "high"
    ensures !Offers(rules, ctx, "high") && Offers(rules, ctx, "medium") ==> rules[i].priority == "medium"
    ensures !Offers(rules, ctx, "high") && !Offers(rules, ctx, "medium") && Offers(rules, ctx, "low") ==>
              rules[i].priority == "low"
    ensures forall j :: 0 <= j < i && Decisive(rules[j], ctx) ==>
              rules[j].priority != rules[i].priority && (Named(rules[i].priority) || Named(rules[j].priority))
  {
    assert Decides(ctx)(rules[i]) && Decisive(rules[i], ctx);
    forall j | 0 <= j < |rules| && Decisive(rules[j], ctx)
      ensures Rank(rules[i]) < Rank(rules[j]) || (Rank(rules[i]) == Rank(rules[j]) && i <= j)
    {
      assert Decides(ctx)(rules[j]);
    }
    assert Offers(rules, ctx, rules[i].priority);
  }

  // ---------------------------------------------------------------------------
  // Operators and modes
  // ---------------------------------------------------------------------------

  function Holds(op: Operator, actual: Value, expected: Value): Verdict {
    MatchCondition(Condition("field", op, expected), map["field" := actual])
  }

  /** Only the value of the condition's own field matters, and a field that is not there fails
      under every operator, the negative ones too. */
  lemma OnlyTheFieldMatters(c: Condition, ctx: map<string, Value>)
    ensures c.field in ctx ==> MatchCondition(c, ctx) == Holds(c.operator, ctx[c.field], c.expected)
    ensures c.field !in ctx ==> MatchCondition(c, ctx) == Fails
  {
  }

  /** The negative operators negate, on values that are there. */
  lemma NegationsNegate(a: Value, b: Value)
    ensures Holds(Is, a, b) == Matches <==> Holds(IsNot, a, b) == Fails
    ensures Holds(In, a, b) == Matches <==> Holds(NotIn, a, b) == Fails
    ensures Holds(In, a, b) == Raises <==> Holds(NotIn, a, b) == Raises
    ensures Holds(Is, a, b) != Raises && Holds(IsNot, a, b) != Raises
  {
  }

  /** Equal texts contain and start with each other; starting with a text contains it; being
      among a value's items is being equal to one of them. */
  lemma TextOperators(a: Value, b: Value)
    ensures Holds(Is, a, b) == Matches ==> Holds(StartsWith, a, b) == Matches
    ensures Holds(StartsWith, a, b) == Matches ==> Holds(Contains, a, b) == Matches
    ensures Holds(Is, a, b) == Matches <==> Holds(StartsWith, a, b) == Matches && Holds(StartsWith, b, a) == Matches
    ensures b.items == Some([b.text]) ==> Holds(In, a, b) == Holds(Is, a, b)
  {
    assert a.text[0..] == a.text;
  }

  /** Being among the items of two lists put together is being among those of one of them. */
  lemma ItemsAdd(a: Value, xs: seq<string>, ys: seq<string>)
    ensures Holds(In, a, Value("", None, Some(xs + ys))) == Matches <==>
            Holds(In, a, Value("", None, Some(xs))) == Matches || Holds(In, a, Value("", None, Some(ys))) == Matches
    ensures Holds(In, a, Value("", None, Some([]))) == Fails
  {
  }

  /** A text contains exactly what stands somewhere between a beginning and an end of it. */
  lemma ContainsIffBetween(a: Value, b: Value)
    ensures Holds(Contains, a, b) == Matches <==> exists x, y :: a.text == x + b.text + y
  {
    if Substring(b.text, a.text) {
      var i :| 0 <= i <= |a.text| - |b.text| && b.text <= a.text[i..];
      assert a.text == a.text[..i] + b.text + a.text[i + |b.text|..];
    }
    if x, y :| a.text == x + b.text + y {
      assert a.text[|x|..] == b.text + y;
      assert b.text <= a.text[|x|..];
    }
  }

  /** The orders: each is the other turned round, a greater actual value passes "greater" if a
      smaller one does, and of two numbers exactly one of greater, less and equal holds. */
  lemma OrderOperators(a: Value, b: Value, more: Value)
    ensures Holds(GreaterThan, a, b) == Holds(LessThan, b, a)
    ensures Holds(GreaterThan, a, b) == Raises <==> a.number == None || b.number == None
    ensures Holds(GreaterThan, a, b) == Matches && more.number.Some? && more.number.value >= a.number.value ==>
              Holds(GreaterThan, more, b) == Matches
    ensures Holds(LessThan, more, b) == Matches && a.number.Some? && more.number.value >= a.number.value ==>
              Holds(LessThan, a, b) == Matches
    ensures a.number.Some? && b.number.Some? ==>
              (Holds(GreaterThan, a, b) == Fails && Holds(LessThan, a, b) == Fails <==> a.number == b.number)
    ensures !(Holds(GreaterThan, a, b) == Matches && Holds(LessThan, a, b) == Matches)
  {
  }

  function WithCondition(r: Rule, c: Condition): Rule {
    r.(conditions := r.conditions + [c])
  }

  /** A condition more makes a rule of mode "all" match less and a rule of any other mode match
      more; a condition that cannot be evaluated spoils both. */
  lemma ConditionsAdd(r: Rule, c: Condition, ctx: map<string, Value>)
    ensures Judge(WithCondition(r, c), ctx) ==
            if Judge(r, ctx) == Raises || MatchCondition(c, ctx) == Raises then Raises
            else if r.mode == "all" then (if Judge(r, ctx) == Matches then MatchCondition(c, ctx) else Fails)
            else (if Judge(r, ctx) == Fails then MatchCondition(c, ctx) else Matches)
    ensures r.conditions == [] ==> Judge(r, ctx) == if r.mode == "all" then Matches else Fails
  {
    var cs, n := r.conditions + [c], |r.conditions|;
    assert cs[n] == c && forall i :: 0 <= i < n ==> cs[i] == r.conditions[i];
  }
}
