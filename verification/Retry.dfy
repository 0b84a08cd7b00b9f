/** Retrying with exponential backoff (utils/retry_utils.py), the fallback over Groq models
    (mcp_tools/llm_client.py), and the two composed as classification composes them
    (agents/classification_agent.py). */
module Retry {

  datatype Option<T> = None | Some(value: T)

  /** How one attempt ends: it returns, raises an exception the decorator catches, or raises
      one it does not. */
  datatype Attempt<V> = Returned(value: V) | Caught(why: string) | Uncaught(why: string)

  datatype OnExhaust = Raise | DeadLetterQueue | ReturnNone

  /** How the wrapper ends. `NoAttempt` is the generic exception raised when the retry count is
      negative and the function was never called. */
  datatype Outcome<V> = Value(value: V) | Propagated(why: string) | DeadLetter | Nothing | NoAttempt

  function Doubled(base: real, k: nat): real {
    if k == 0 then base else 2.0 * Doubled(base, k - 1)
  }

  function Delay(base: real, cap: real, k: nat): real {
    var d := Doubled(base, k);
    if d <= cap then d else cap
  }

  /** The delays after the first `k` failures, together. */
  function Backoff(base: real, cap: real, k: nat): real {
    if k == 0 then 0.0 else Backoff(base, cap, k - 1) + Delay(base, cap, k - 1)
  }

  lemma {:induction false} BackoffGrows(base: real, cap: real, j: nat, k: nat)
    requires base >= 0.0 && cap >= 0.0 && j <= k
    ensures Backoff(base, cap, j) <= Backoff(base, cap, k)
    decreases k
  {
    if j < k {
      BackoffGrows(base, cap, j, k - 1);
      DoubledIsPositive(base, k - 1);
    }
  }

  lemma {:induction false} DoubledIsPositive(base: real, k: nat)
    requires base >= 0.0
    ensures Doubled(base, k) >= 0.0
  {
    if k > 0 {
      DoubledIsPositive(base, k - 1);
    }
  }

  /** What the delays are: the first is the base, each doubles the one before, and none exceeds
      the cap; when the base already does, all are the cap. */
  lemma DelaysDoubleUpToTheCap(base: real, cap: real, k: nat)
    requires base >= 0.0 && cap >= 0.0
    ensures 0.0 <= Delay(base, cap, k) <= cap
    ensures base <= cap ==> Delay(base, cap, 0) == base
    ensures Delay(base, cap, k + 1) == if 2.0 * Delay(base, cap, k) <= cap then 2.0 * Delay(base, cap, k) else cap
  {
    DoubledIsPositive(base, k);
  }

  /** With a base above the cap the wrapper sleeps the cap each time. */
  lemma {:induction false} CappedBackoff(base: real, cap: real, k: nat)
    requires base >= cap >= 0.0
    ensures Delay(base, cap, k) == cap && Backoff(base, cap, k) == k as real * cap
  {
    if k > 0 {
      CappedBackoff(base, cap, k - 1);
      DelaysDoubleUpToTheCap(base, cap, k - 1);
    }
  }

  /** No attempt up to `n` settles the call. */
  ghost predicate AllCaught<V>(attempts: nat -> Attempt<V>, n: nat) {
    forall i: nat :: i < n ==> attempts(i).Caught?
  }

  /** The attempt that settles the call. */
  ghost predicate SettledBy<V>(attempts: nat -> Attempt<V>, k: nat, retries: int) {
    k <= retries && AllCaught(attempts, k) && !attempts(k).Caught?
  }

  /** The wrapper. It returns the first value iff one of the first retries + 1 attempts returns
      before any uncaught exception, after exactly that many calls; the total sleep never
      exceeds the sum of the capped delays of all retries. */
  method Wrapper<V>(retries: int, base: real, cap: real, onExhaust: OnExhaust, attempts: nat -> Attempt<V>)
    returns (r: Outcome<V>, calls: nat, slept: real)
    requires base >= 0.0 && cap >= 0.0
    ensures forall k: nat :: SettledBy(attempts, k, retries) ==>
      && calls == k + 1 && slept == Backoff(base, cap, k)
      && r == (if attempts(k).Returned? then Value(attempts(k).value) else Propagated(attempts(k).why))
    ensures r.Value? <==> exists k: nat :: SettledBy(attempts, k, retries) && attempts(k).Returned?
    ensures retries >= 0 && AllCaught(attempts, retries + 1) ==>
      && calls == retries + 1 && slept == Backoff(base, cap, retries)
      && r == (match onExhaust case DeadLetterQueue => DeadLetter case ReturnNone => Nothing
                               case Raise => Propagated(attempts(retries).why))
    ensures r.Value? || r.Propagated? || AllCaught(attempts, if retries < 0 then 0 else retries + 1)
    ensures calls <= if retries < 0 then 0 else retries + 1
    ensures retries < 0 ==> calls == 0 && slept == 0.0 && !r.Value? && !r.Propagated?
    ensures 0.0 <= slept <= Backoff(base, cap, if retries < 0 then 0 else retries)
  {
    calls, slept := 0, 0.0;
    var lastExc: Option<string> := None;
    var attempt := 0;
    while attempt < retries + 1
      invariant 0 <= attempt && (retries >= 0 ==> attempt <= retries + 1) && (retries < 0 ==> attempt == 0)
      invariant calls == attempt && AllCaught(attempts, attempt)
      invariant slept == Backoff(base, cap, if attempt <= retries || attempt == 0 then attempt else retries)
      invariant lastExc == if attempt == 0 then None else Some(attempts(attempt - 1).why)
    {
      calls := calls + 1;
      match attempts(attempt)
      case Returned(v) =>
        assert SettledBy(attempts, attempt, retries);
        BackoffGrows(base, cap, 0, attempt);
        BackoffGrows(base, cap, attempt, retries);
        return Value(v), calls, slept;
      case Uncaught(why) =>
        assert SettledBy(attempts, attempt, retries);
        BackoffGrows(base, cap, 0, attempt);
        BackoffGrows(base, cap, attempt, retries);
        return Propagated(why), calls, slept;
      case Caught(why) =>
        lastExc := Some(why);
        if attempt < retries {
          slept := slept + Delay(base, cap, attempt);
        }
      attempt := attempt + 1;
    }
    BackoffGrows(base, cap, 0, if retries < 0 then 0 else retries);
    match onExhaust
    case DeadLetterQueue => r := DeadLetter;
    case ReturnNone => r := Nothing;
    case Raise => r := if lastExc.Some? then Propagated(lastExc.value) else NoAttempt;
  }

  // ---------------------------------------------------------------------------
  // Model fallback
  // ---------------------------------------------------------------------------

  predicate Present(m: Option<string>) {
    m.Some? && m.value != ""
  }

  /** The configured models without the missing ones. */
  function Configured(models: seq<Option<string>>): (r: seq<string>)
    ensures |r| <= |models|
  {
    if models == [] then []
    else (if Present(models[0]) then [models[0].value] else []) + Configured(models[1..])
  }

  /** The position of the k-th configured model among the candidates. */
  function Position(models: seq<Option<string>>, k: nat): (i: nat)
    requires k < |Configured(models)|
    ensures i < |models| && Present(models[i]) && models[i].value == Configured(models)[k]
  {
    if !Present(models[0]) then 1 + Position(models[1..], k)
    else if k == 0 then 0
    else 1 + Position(models[1..], k - 1)
  }

  /** The configured models keep the order of the candidates. */
  lemma {:induction false} ConfiguredKeepsOrder(models: seq<Option<string>>, j: nat, k: nat)
    requires j < k < |Configured(models)|
    ensures Position(models, j) < Position(models, k)
  {
    if !Present(models[0]) {
      ConfiguredKeepsOrder(models[1..], j, k);
    } else if j > 0 {
      ConfiguredKeepsOrder(models[1..], j - 1, k - 1);
    }
  }

  /** No candidate that is there is left out, however often it is listed. */
  lemma {:induction false} ConfiguredKeepsAll(models: seq<Option<string>>, i: nat) returns (k: nat)
    requires i < |models| && Present(models[i])
    ensures k < |Configured(models)| && Position(models, k) == i
  {
    if i == 0 {
      k := 0;
    } else {
      k := ConfiguredKeepsAll(models[1..], i - 1);
      if Present(models[0]) {
        k := k + 1;
      }
    }
  }

  /** The first model from the m-th on that works, of `n` models. */
  function FirstWorking(n: nat, works: nat -> bool, m: nat): (r: Option<nat>)
    requires m <= n
    ensures r == None <==> forall i: nat :: m <= i < n ==> !works(i)
    ensures r.Some? ==> m <= r.value < n && works(r.value) && forall i: nat :: m <= i < r.value ==> !works(i)
    decreases n - m
  {
    if m == n then None else if works(m) then Some(m) else FirstWorking(n, works, m + 1)
  }

  /** The model that answers: the first configured one whose call succeeds. */
  function Chosen(models: seq<Option<string>>, works: nat -> bool): Option<nat> {
    FirstWorking(|Configured(models)|, works, 0)
  }

  /** The models tried, each after acquiring a rate-limit slot. */
  function Tries(models: seq<Option<string>>, works: nat -> bool): (t: nat)
    ensures t <= |Configured(models)| <= |models|
    ensures forall m: nat :: m < t - 1 ==> !works(m)
    ensures t == |Configured(models)| || (t > 0 && works(t - 1))
    ensures t == 0 <==> Configured(models) == []
  {
    match Chosen(models, works)
    case Some(m) => m + 1
    case None => |Configured(models)|
  }

  /** `call_llm` for Groq: `works(m)` says whether the call to the m-th model succeeds. */
  method CallGroq(models: seq<Option<string>>, works: nat -> bool) returns (used: Option<string>, acquired: nat)
    ensures used == match Chosen(models, works) case Some(m) => Some(Configured(models)[m]) case None => None
    ensures acquired == Tries(models, works)
  {
    var ms := Configured(models);
    acquired := 0;
    for m := 0 to |ms|
      invariant acquired == m && forall i: nat :: i < m ==> !works(i)
    {
      acquired := acquired + 1;
      if works(m) {
        return Some(ms[m]), acquired;
      }
    }
    used := None;
  }

  /** The i-th attempt of a classification yields a result: some model answers and its reply
      can be read. */
  predicate Answers(models: seq<Option<string>>, works: nat -> nat -> bool, parses: nat -> bool, i: nat) {
    parses(i) && Chosen(models, works(i)).Some?
  }

  /** The attempts as the decorator sees them: an attempt that answers returns its own number,
      any other one raises an exception the decorator catches. */
  function Attempts(models: seq<Option<string>>, works: nat -> nat -> bool, parses: nat -> bool): nat -> Attempt<nat> {
    (i: nat) => if Answers(models, works, parses, i) then Returned(i) else Caught("")
  }

  /** The rate-limit slots the first `calls` attempts acquire. */
  function Acquisitions(models: seq<Option<string>>, works: nat -> nat -> bool, calls: nat): (n: nat)
    ensures n <= calls * |models|
  {
    if calls == 0 then 0 else Acquisitions(models, works, calls - 1) + Tries(models, works(calls - 1))
  }

  ghost predicate NoneWorks(n: nat, works: nat -> bool) {
    forall m: nat :: m < n ==> !works(m)
  }

  /** An attempt in which no model works tries them all, one in which the first works only it. */
  lemma TriesExtreme(models: seq<Option<string>>, works: nat -> bool)
    ensures NoneWorks(|Configured(models)|, works) ==> Tries(models, works) == |Configured(models)|
    ensures Configured(models) != [] && works(0) ==> Tries(models, works) == 1
  {
  }

  lemma {:induction false} AllFail(models: seq<Option<string>>, works: nat -> nat -> bool, calls: nat)
    requires forall i: nat :: i < calls ==> NoneWorks(|Configured(models)|, works(i))
    ensures Acquisitions(models, works, calls) == calls * |Configured(models)|
  {
    if calls > 0 {
      AllFail(models, works, calls - 1);
      TriesExtreme(models, works(calls - 1));
    }
  }

  lemma {:induction false} FirstAlwaysWorks(models: seq<Option<string>>, works: nat -> nat -> bool, calls: nat)
    requires Configured(models) != [] && forall i: nat :: i < calls ==> works(i)(0)
    ensures Acquisitions(models, works, calls) == calls
  {
    if calls > 0 {
      FirstAlwaysWorks(models, works, calls - 1);
      TriesExtreme(models, works(calls - 1));
    }
  }

  lemma BackoffOfThree()
    ensures Backoff(1.0, 30.0, 1) == 1.0 && Backoff(1.0, 30.0, 2) == 3.0 && Backoff(1.0, 30.0, 3) == 7.0
  {
    assert Doubled(1.0, 0) == 1.0 && Doubled(1.0, 1) == 2.0 && Doubled(1.0, 2) == 4.0;
    assert Backoff(1.0, 30.0, 1) == 1.0 && Backoff(1.0, 30.0, 2) == 3.0;
  }

  lemma AttemptsAnswer(models: seq<Option<string>>, works: nat -> nat -> bool, parses: nat -> bool, k: nat)
    ensures var a := Attempts(models, works, parses)(k);
      && (Answers(models, works, parses, k) ==> a == Returned(k))
      && (!Answers(models, works, parses, k) ==> a.Caught?)
  {
  }

  /** The decorated attempts settle exactly at the first one that answers. */
  lemma SettledIffFirstAnswer(models: seq<Option<string>>, works: nat -> nat -> bool, parses: nat -> bool, k: nat, retries: int)
    ensures SettledBy(Attempts(models, works, parses), k, retries) <==>
            k <= retries && Answers(models, works, parses, k) && forall i: nat :: i < k ==> !Answers(models, works, parses, i)
    ensures AllCaught(Attempts(models, works, parses), k) <==> forall i: nat :: i < k ==> !Answers(models, works, parses, i)
  {
    forall i: nat
      ensures Attempts(models, works, parses)(i).Caught? <==> !Answers(models, works, parses, i)
    {
      AttemptsAnswer(models, works, parses, i);
    }
  }

  /** One classification: `works(i)` answers for the models at the i-th attempt, `parses(i)`
      for the reading of the reply. It succeeds iff one of four attempts does, with the result
      of the first that does; three retries over at most three models bound it to twelve
      rate-limit acquisitions and seven seconds of backoff. */
  method ClassifyAndScore(models: seq<Option<string>>, works: nat -> nat -> bool, parses: nat -> bool)
    returns (r: Outcome<nat>, acquired: nat, slept: real)
    requires |models| == 3
    ensures acquired == Acquisitions(models, works, if r.Value? then r.value + 1 else 4)
    ensures acquired <= 12 && slept <= 7.0
    ensures r == DeadLetter ==> slept == 7.0
    ensures r.Value? ==> slept == if r.value == 0 then 0.0 else if r.value == 1 then 1.0 else if r.value == 2 then 3.0 else 7.0
    ensures r.Value? || r == DeadLetter
    ensures r.Value? <==> exists i: nat :: i <= 3 && Answers(models, works, parses, i)
    ensures r.Value? ==> r.value <= 3 && Answers(models, works, parses, r.value) &&
                         forall i: nat :: i < r.value ==> !Answers(models, works, parses, i)
  {
    var calls;
    var attempts := Attempts(models, works, parses);
    r, calls, slept := Wrapper(3, 1.0, 30.0, DeadLetterQueue, attempts);
    BackoffOfThree();
    ghost var k: nat := 4;
    if r.Value? {
      k :| SettledBy(attempts, k, 3) && attempts(k).Returned?;
      AttemptsAnswer(models, works, parses, k);
    } else {
      FirstAnswer(attempts, 3);
    }
    SettledIffFirstAnswer(models, works, parses, k, 3);
    acquired := Acquisitions(models, works, calls);
  }

  /** When nothing but caught exceptions and values can happen, the wrapper is settled unless
      every attempt failed. */
  lemma {:induction false} FirstAnswer<V>(attempts: nat -> Attempt<V>, retries: nat)
    ensures AllCaught(attempts, retries + 1) || exists k: nat :: SettledBy(attempts, k, retries)
    decreases retries
  {
    if retries == 0 {
      assert attempts(0).Caught? || SettledBy(attempts, 0, 0);
    } else {
      var fewer: nat := retries - 1;
      FirstAnswer(attempts, fewer);
      if k: nat :| SettledBy(attempts, k, fewer) {
        assert SettledBy(attempts, k, retries);
      } else if !attempts(retries).Caught? {
        assert SettledBy(attempts, retries, retries);
      }
    }
  }
}
