/** The two sliding-window rate limiters.

    `RateLimiter` blocks the caller (mcp_tools/llm_client.py); `ClientLimiter`
    rejects it (enterprise-mcp-server/app/api/routers/mlflow.py). Clock readings are
    parameters; a history of all grants, kept beside the code's short list, says what
    the short list stands for. */
module RateLimit {
  import opened Spacing

  const WINDOW := 60.0

  /** The list comprehension of both limiters: entries younger than 60 s at `now`. */
  function Young(h: seq<real>, now: real): seq<real> {
    if h == [] then []
    else (if now - h[0] < WINDOW then [h[0]] else []) + Young(h[1..], now)
  }

  /** The list `window` is the tail of the history `grants` up to the instant `last`: what it
      dropped can never become young again. Grants `k` places apart are a window apart. */
  ghost predicate Sound(window: seq<real>, grants: seq<real>, k: nat, last: real) {
    && Tail(window, grants, last)
    && History(grants, k, last)
  }

  ghost predicate Tail(window: seq<real>, grants: seq<real>, last: real) {
    && |window| <= |grants|
    && window == grants[|grants| - |window|..]
    && (forall i :: 0 <= i < |grants| - |window| ==> grants[i] + WINDOW <= last)
  }

  ghost predicate History(grants: seq<real>, k: nat, last: real) {
    && Ordered(grants)
    && Spaced(grants, k, WINDOW)
    && (forall i :: 0 <= i < |grants| ==> grants[i] <= last)
  }

  lemma {:induction false} YoungOfOld(h: seq<real>, now: real)
    requires forall i :: 0 <= i < |h| ==> h[i] + WINDOW <= now
    ensures Young(h, now) == []
  {
    if h != [] {
      YoungOfOld(h[1..], now);
    }
  }

  lemma {:induction false} YoungOfRecent(h: seq<real>, now: real)
    requires forall i :: 0 <= i < |h| ==> now < h[i] + WINDOW
    ensures Young(h, now) == h
  {
    if h != [] {
      YoungOfRecent(h[1..], now);
    }
  }

  lemma {:induction false} YoungOfConcat(a: seq<real>, b: seq<real>, now: real)
    ensures Young(a + b, now) == Young(a, now) + Young(b, now)
  {
    if a == [] {
      assert a + b == b;
    } else {
      assert (a + b)[1..] == a[1..] + b;
      YoungOfConcat(a[1..], b, now);
    }
  }

  /** The first position of an ordered history that is young. */
  lemma {:induction false} FirstYoung(h: seq<real>, now: real) returns (cut: nat)
    requires Ordered(h)
    ensures cut <= |h|
    ensures forall i :: 0 <= i < cut ==> h[i] + WINDOW <= now
    ensures forall i :: cut <= i < |h| ==> now < h[i] + WINDOW
  {
    cut := 0;
    while cut < |h| && h[cut] + WINDOW <= now
      invariant cut <= |h|
      invariant forall i :: 0 <= i < cut ==> h[i] + WINDOW <= now
    {
      cut := cut + 1;
    }
  }

  /** In an ordered history the young entries are exactly its tail from some cut on. */
  lemma YoungIsTail(h: seq<real>, now: real) returns (cut: nat)
    requires Ordered(h)
    ensures cut <= |h| && Young(h, now) == h[cut..]
    ensures forall i :: 0 <= i < cut ==> h[i] + WINDOW <= now
    ensures forall i :: cut <= i < |h| ==> now < h[i] + WINDOW
  {
    cut := FirstYoung(h, now);
    YoungOfOld(h[..cut], now);
    YoungOfRecent(h[cut..], now);
    YoungOfConcat(h[..cut], h[cut..], now);
    assert h == h[..cut] + h[cut..];
  }

  /** The positions of the instants less than 60 s old. */
  ghost function Recent(h: seq<real>, now: real): set<int> {
    set i | 0 <= i < |h| && now - h[i] < 60.0
  }

  lemma RecentCount(h: seq<real>, now: real)
    requires Ordered(h)
    ensures |Recent(h, now)| == |Young(h, now)|
  {
    var cut := YoungIsTail(h, now);
    assert Recent(h, now) == Interval(cut, |h| - cut);
  }

  lemma SameYoung(window: seq<real>, grants: seq<real>, last: real, now: real)
    requires Tail(window, grants, last) && last <= now
    ensures Young(window, now) == Young(grants, now)
  {
    var n := |grants| - |window|;
    YoungOfOld(grants[..n], now);
    YoungOfConcat(grants[..n], window, now);
    assert grants == grants[..n] + window;
  }

  lemma YoungTail(grants: seq<real>, now: real)
    requires Ordered(grants)
    ensures Tail(Young(grants, now), grants, now)
  {
    var cut := YoungIsTail(grants, now);
  }

  lemma PrunedTail(window: seq<real>, grants: seq<real>, last: real, now: real)
    requires Tail(window, grants, last) && Ordered(grants) && last <= now
    ensures Young(window, now) == Young(grants, now)
    ensures Tail(Young(window, now), grants, now)
  {
    SameYoung(window, grants, last, now);
    YoungTail(grants, now);
  }

  lemma FewAreYoung(grants: seq<real>, k: nat, now: real)
    requires History(grants, k, now) && k > 0
    ensures |Young(grants, now)| <= k
  {
    var cut := YoungIsTail(grants, now);
    assert cut < |grants| ==> now < grants[cut] + WINDOW && grants[|grants| - 1] <= now;
  }

  /** Pruning the short list gives the same as pruning the whole history, and at most `k`
      grants are younger than a window. */
  lemma PrunedWindowIsFullHistory(window: seq<real>, grants: seq<real>, k: nat, last: real, now: real)
    requires Sound(window, grants, k, last) && last <= now && k > 0
    ensures Young(window, now) == Young(grants, now)
    ensures |Young(grants, now)| <= k
    ensures Sound(Young(window, now), grants, k, now)
  {
    PrunedTail(window, grants, last, now);
    FewAreYoung(grants, k, now);
  }

  lemma GrantKeepsHistory(grants: seq<real>, k: nat, now: real, t: real)
    requires History(grants, k, now) && now <= t && k > 0
    requires |Young(grants, now)| == k ==> Young(grants, now)[0] + WINDOW <= t
    ensures History(grants + [t], k, t)
  {
    FewAreYoung(grants, k, now);
    var cut := YoungIsTail(grants, now);
    forall i | 0 <= i && i + k <= |grants| && i < |grants|
      ensures grants[i] + WINDOW <= t
    {
      // Already pruned, or the oldest of exactly k young grants.
      assert i < cut || (i == cut && |grants| - cut == k);
    }
    AppendSpaced(grants, k, WINDOW, t);
  }

  lemma TailStep(window: seq<real>, grants: seq<real>, now: real, t: real)
    requires Tail(window, grants, now) && now <= t
    ensures Tail(window + [t], grants + [t], t)
  {
  }

  /** A grant at `t` keeps the limiter sound: the grant `k` places before is a window old. */
  lemma GrantKeepsSound(window: seq<real>, grants: seq<real>, k: nat, last: real, now: real, t: real)
    requires Sound(window, grants, k, last) && last <= now <= t && k > 0
    requires |Young(grants, now)| == k ==> Young(grants, now)[0] + WINDOW <= t
    ensures Sound(Young(window, now) + [t], grants + [t], k, t)
  {
    PrunedTail(window, grants, last, now);
    TailStep(Young(window, now), grants, now, t);
    GrantKeepsHistory(grants, k, now, t);
  }

  // ---------------------------------------------------------------------------
  // The blocking limiter
  // ---------------------------------------------------------------------------

  datatype Outcome = Granted | IndexError

  /** How long `acquire` sleeps, from its pruned list. */
  function Delay(pruned: seq<real>, rpm: int, now: real): real
    requires rpm > 0
  {
    if |pruned| >= rpm then
      var d := WINDOW - (now - pruned[0]) + 0.1;
      if d > 0.0 then d else 0.0
    else 0.0
  }

  /** One call: the clock reads `now` on entry and `after` when the code appends. */
  datatype Call = Call(now: real, after: real)

  /** The clock is monotone, and a sleep lasts at least as long as asked. */
  predicate Timely(window: seq<real>, rpm: int, last: real, c: Call)
    requires rpm > 0
  {
    last <= c.now && c.now + Delay(Young(window, c.now), rpm, c.now) <= c.after
  }

  /** The `rpm` latest grants of a history all lie in the last 60 s. */
  predicate Held(grants: seq<real>, rpm: int, now: real)
    requires rpm > 0
  {
    |grants| >= rpm && now - grants[|grants| - rpm] < 60.0
  }

  /** A full window is the `rpm` latest grants. */
  lemma FullIffHeld(grants: seq<real>, rpm: int, now: real)
    requires rpm > 0 && History(grants, rpm, now)
    ensures |Young(grants, now)| == rpm <==> Held(grants, rpm, now)
    ensures Held(grants, rpm, now) ==> Young(grants, now) == grants[|grants| - rpm..]
  {
    FewAreYoung(grants, rpm, now);
    var cut := YoungIsTail(grants, now);
  }

  /** Until when a call waits: with a full window, until 60.1 s after the grant that is `rpm`
      places back, and no longer; otherwise not at all. */
  lemma WaitsUntil(grants: seq<real>, rpm: int, now: real)
    requires rpm > 0 && History(grants, rpm, now)
    ensures now + Delay(Young(grants, now), rpm, now) ==
            if Held(grants, rpm, now) then grants[|grants| - rpm] + 60.1 else now
  {
    FewAreYoung(grants, rpm, now);
    FullIffHeld(grants, rpm, now);
  }

  /** One call: it waits exactly when `rpm` grants lie in the last 60 s, never longer than
      60.1 s, keeps at most rpm + 1 entries, and keeps the limiter sound. */
  lemma AcquireStep(window: seq<real>, grants: seq<real>, rpm: int, last: real, c: Call)
    requires rpm > 0 && Sound(window, grants, rpm, last) && Timely(window, rpm, last, c)
    ensures Sound(Young(window, c.now) + [c.after], grants + [c.after], rpm, c.after)
    ensures Young(window, c.now) == Young(grants, c.now) && |Young(window, c.now)| <= rpm
    ensures Delay(Young(window, c.now), rpm, c.now) > 0.0 <==> |Young(grants, c.now)| == rpm
    ensures Delay(Young(window, c.now), rpm, c.now) <= WINDOW + 0.1
  {
    PrunedWindowIsFullHistory(window, grants, rpm, last, c.now);
    var cut := YoungIsTail(grants, c.now);
    GrantKeepsSound(window, grants, rpm, last, c.now, c.after);
  }

  /** A run of calls on one limiter: its list after them. */
  ghost function WindowAfter(calls: seq<Call>): seq<real>
    decreases |calls|
  {
    if calls == [] then []
    else
      var c := calls[|calls| - 1];
      Young(WindowAfter(calls[..|calls| - 1]), c.now) + [c.after]
  }

  ghost predicate TimelyRun(calls: seq<Call>, rpm: int)
    requires rpm > 0
    decreases |calls|
  {
    if calls == [] then true
    else
      var front, c := calls[..|calls| - 1], calls[|calls| - 1];
      && TimelyRun(front, rpm)
      && Timely(WindowAfter(front), rpm, if front == [] then c.now else front[|front| - 1].after, c)
  }

  ghost function GrantTimes(calls: seq<Call>): (h: seq<real>)
    ensures |h| == |calls|
  {
    seq(|calls|, i requires 0 <= i < |calls| => calls[i].after)
  }

  lemma {:induction false} RunIsSound(rpm: int, calls: seq<Call>)
    requires rpm > 0 && calls != [] && TimelyRun(calls, rpm)
    ensures Sound(WindowAfter(calls), GrantTimes(calls), rpm, calls[|calls| - 1].after)
    decreases |calls|
  {
    var front, c := calls[..|calls| - 1], calls[|calls| - 1];
    assert GrantTimes(calls) == GrantTimes(front) + [c.after];
    if front == [] {
      AcquireStep([], [], rpm, c.now, c);
    } else {
      RunIsSound(rpm, front);
      AcquireStep(WindowAfter(front), GrantTimes(front), rpm, front[|front| - 1].after, c);
    }
  }

  /** Rate-limit safety over every run of `acquire`: grants `rpm` places apart are at least
      60 s apart, and no half-open 60 s interval holds more than `rpm` grants. */
  lemma RateLimitSafety(rpm: int, calls: seq<Call>, from: real)
    requires rpm > 0 && TimelyRun(calls, rpm)
    ensures Spaced(GrantTimes(calls), rpm, 60.0)
    ensures |Within(GrantTimes(calls), from, from + 60.0)| <= rpm
  {
    var h := GrantTimes(calls);
    assert Spaced(h, rpm, WINDOW) by {
      if calls != [] {
        RunIsSound(rpm, calls);
      }
    }
    AtMostKPerGap(h, rpm, WINDOW, from);
  }

  /** `_RateLimiter`: the list is rebound and appended to by every call. */
  class RateLimiter {
    const rpm: int
    var window: seq<real>
    ghost var grants: seq<real>
    ghost var last: real

    /** A quota below one never grants anything, so its list stays empty. */
    ghost predicate Valid()
      reads this
    {
      if rpm > 0 then Sound(window, grants, rpm, last) else window == [] && grants == []
    }

    constructor (rpm: int, ghost start: real)
      ensures Valid() && this.rpm == rpm && window == [] && grants == [] && last == start
    {
      this.rpm := rpm;
      window := [];
      grants := [];
      last := start;
    }

    /** With a quota below one the code indexes an empty list and raises. */
    method Acquire(c: Call) returns (r: Outcome, slept: real)
      requires Valid() && last <= c.now
      requires rpm > 0 ==> Timely(window, rpm, last, c)
      modifies this
      ensures Valid()
      ensures rpm <= 0 ==> r == IndexError && window == old(window) && grants == old(grants)
      ensures rpm > 0 ==> r == Granted && grants == old(grants) + [c.after] && last == c.after
      ensures rpm > 0 ==> window == Young(old(grants), c.now) + [c.after] && |window| <= rpm + 1
      ensures rpm > 0 ==>
        c.now + slept == if Held(old(grants), rpm, c.now) then old(grants)[|old(grants)| - rpm] + 60.1 else c.now
      ensures rpm > 0 ==> 0.0 <= slept <= 60.1 && (slept > 0.0 <==> |Young(old(grants), c.now)| == rpm)
    {
      slept := 0.0;
      if rpm > 0 {
        AcquireStep(window, grants, rpm, last, c);
        PrunedWindowIsFullHistory(window, grants, rpm, last, c.now);
        WaitsUntil(grants, rpm, c.now);
      }
      window := Young(window, c.now);
      if |window| >= rpm {
        if window == [] {
          r := IndexError;
          return;
        }
        var sleepFor := WINDOW - (c.now - window[0]) + 0.1;
        slept := if sleepFor > 0.0 then sleepFor else 0.0;
      }
      window := window + [c.after];
      grants := grants + [c.after];
      last := c.after;
      r := Granted;
    }
  }

  // ---------------------------------------------------------------------------
  // The rejecting limiter
  // ---------------------------------------------------------------------------

  const QUOTA := 20

  type Rates = map<string, seq<real>>

  function Listed(rates: Rates, ip: string): seq<real> {
    if ip in rates then rates[ip] else []
  }

  predicate Admits(rates: Rates, ip: string, now: real) {
    |Young(Listed(rates, ip), now)| < QUOTA
  }

  function Checked(rates: Rates, ip: string, now: real): Rates {
    rates[ip := Young(Listed(rates, ip), now) + if Admits(rates, ip, now) then [now] else []]
  }

  /** `SimpleCacheRateLimiter`: one list of admitted instants per client address. */
  class ClientLimiter {
    var rates: Rates

    constructor ()
      ensures rates == map[]
    {
      rates := map[];
    }

    method CheckRateLimit(ip: string, now: real) returns (admitted: bool)
      modifies this
      ensures admitted == Admits(old(rates), ip, now)
      ensures rates == Checked(old(rates), ip, now)
    {
      if ip !in rates {
        rates := rates[ip := []];
      }
      rates := rates[ip := Young(rates[ip], now)];
      if |rates[ip]| >= QUOTA {
        assert rates[ip] == rates[ip] + [];
        return false;
      }
      rates := rates[ip := rates[ip] + [now]];
      return true;
    }
  }

  datatype Request = Request(ip: string, now: real)

  ghost function RatesAfter(rs: seq<Request>): Rates
    decreases |rs|
  {
    if rs == [] then map[]
    else Checked(RatesAfter(rs[..|rs| - 1]), rs[|rs| - 1].ip, rs[|rs| - 1].now)
  }

  /** The instants at which `ip` was admitted during a run of requests. */
  ghost function Admitted(rs: seq<Request>, ip: string): seq<real>
    decreases |rs|
  {
    if rs == [] then []
    else
      var front, r := rs[..|rs| - 1], rs[|rs| - 1];
      Admitted(front, ip) +
      if r.ip == ip && Admits(RatesAfter(front), ip, r.now) then [r.now] else []
  }

  ghost predicate Forward(rs: seq<Request>) {
    forall i, j :: 0 <= i <= j < |rs| ==> rs[i].now <= rs[j].now
  }

  lemma CheckStep(window: seq<real>, grants: seq<real>, last: real, now: real)
    requires Sound(window, grants, QUOTA, last) && last <= now
    ensures Young(window, now) == Young(grants, now)
    ensures Sound(Young(window, now), grants, QUOTA, now)
    ensures |Young(window, now)| < QUOTA ==> Sound(Young(window, now) + [now], grants + [now], QUOTA, now)
  {
    PrunedWindowIsFullHistory(window, grants, QUOTA, last, now);
    if |Young(window, now)| < QUOTA {
      GrantKeepsSound(window, grants, QUOTA, last, now, now);
    }
  }

  lemma SoundLater(window: seq<real>, grants: seq<real>, last: real, till: real)
    requires Sound(window, grants, QUOTA, last) && last <= till
    ensures Sound(window, grants, QUOTA, till)
  {
  }

  /** One request: the list of every client still stands for its history. */
  lemma CheckedKeepsSound(rates: Rates, ip: string, grants: seq<real>, r: Request)
    requires Sound(Listed(rates, ip), grants, QUOTA, r.now)
    ensures Sound(Listed(Checked(rates, r.ip, r.now), ip),
                  grants + if ip == r.ip && Admits(rates, ip, r.now) then [r.now] else [], QUOTA, r.now)
  {
    var before := Listed(rates, ip);
    var after := Listed(Checked(rates, r.ip, r.now), ip);
    if ip != r.ip {
      assert grants + [] == grants && after == before;
    } else {
      CheckStep(before, grants, r.now, r.now);
      if Admits(rates, ip, r.now) {
        assert after == Young(before, r.now) + [r.now];
      } else {
        assert grants + [] == grants && after == Young(before, r.now);
      }
    }
  }

  /** After every run the list of every client is, up to stale entries, its whole history;
      requests of one client never touch another. */
  lemma {:induction false} ClientHistory(rs: seq<Request>, ip: string, till: real)
    requires Forward(rs) && (forall i :: 0 <= i < |rs| ==> rs[i].now <= till)
    ensures Sound(Listed(RatesAfter(rs), ip), Admitted(rs, ip), QUOTA, till)
    decreases |rs|
  {
    if rs != [] {
      var front, r := rs[..|rs| - 1], rs[|rs| - 1];
      ClientHistory(front, ip, r.now);
      CheckedKeepsSound(RatesAfter(front), ip, Admitted(front, ip), r);
      SoundLater(Listed(RatesAfter(rs), ip), Admitted(rs, ip), r.now, till);
    }
  }

  /** A request is admitted iff fewer than 20 admissions of that client lie in the last 60 s,
      and no half-open 60 s interval ever holds more than 20 of them. */
  lemma AdmitsIffUnderQuota(rs: seq<Request>, r: Request, from: real)
    requires Forward(rs) && (forall i :: 0 <= i < |rs| ==> rs[i].now <= r.now)
    ensures Admits(RatesAfter(rs), r.ip, r.now) <==> |Recent(Admitted(rs, r.ip), r.now)| < 20
    ensures |Within(Admitted(rs, r.ip), from, from + 60.0)| <= 20
  {
    ClientHistory(rs, r.ip, r.now);
    UnderQuota(RatesAfter(rs), r.ip, Admitted(rs, r.ip), r.now);
    AtMostQuota(RatesAfter(rs), r.ip, Admitted(rs, r.ip), r.now, from);
  }

  lemma UnderQuota(rates: Rates, ip: string, grants: seq<real>, now: real)
    requires Sound(Listed(rates, ip), grants, QUOTA, now)
    ensures Admits(rates, ip, now) <==> |Recent(grants, now)| < 20
  {
    CheckStep(Listed(rates, ip), grants, now, now);
    RecentCount(grants, now);
  }

  lemma AtMostQuota(rates: Rates, ip: string, grants: seq<real>, now: real, from: real)
    requires Sound(Listed(rates, ip), grants, QUOTA, now)
    ensures |Within(grants, from, from + 60.0)| <= 20
  {
    AtMostKPerGap(grants, QUOTA, WINDOW, from);
  }
}
