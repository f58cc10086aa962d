/**
 Admission control by token buckets with eviction (src/server/limits.rs). Tokens and times are real numbers; the
 clock does not go backwards.
 */
module Limiter {
  import opened Base

  const MAX_ENTRIES := 4096

  type Address = nat

  datatype Bucket = Bucket(tokens: real, updated: real, connections: nat, lastSeen: real)

  type Table = map<Address, Bucket>

  datatype Op = Request(ip: Address) | Connect(ip: Address, max: nat) | Release(ip: Address)

  datatype Tick = Tick(at: real, op: Op)

  /** The limiter as it is, or one that never forgets an address. */
  datatype Policy = Policy(evicts: bool, capacity: Option<nat>)

  const ACTUAL := Policy(true, Some(MAX_ENTRIES))
  const FORGETLESS := Policy(false, None)

  // ---------------------------------------------------------------- one operation

  function Lesser(a: real, b: real): real {
    if a <= b then a else b
  }

  /** Tokens gained in a time. */
  function Gain(rate: nat, time: real): real {
    rate as real * time
  }

  predicate Stale(b: Bucket, now: real) {
    !((b.connections > 0 && now - b.lastSeen < 300.0) || now - b.lastSeen < 60.0)
  }

  /** `evict_old` */
  function Evict(t: Table, now: real): Table {
    map ip | ip in t && !Stale(t[ip], now) :: t[ip]
  }

  function Current(policy: Policy, t: Table, now: real): Table {
    if policy.evicts then Evict(t, now) else t
  }

  predicate Room(policy: Policy, t: Table, ip: Address) {
    policy.capacity.None? || |t| < policy.capacity.value || ip in t
  }

  function Refilled(b: Bucket, now: real, rate: nat, burst: nat): real {
    Lesser(b.tokens + Gain(rate, now - b.updated), burst as real)
  }

  /** `allow_request` with its limits on, in a table already cleared of old entries. */
  function Allow(policy: Policy, rate: nat, burst: nat, t: Table, now: real, ip: Address): (Table, bool) {
    if !Room(policy, t, ip) then (t, false)
    else
      var b := if ip in t then t[ip] else Bucket(burst as real, now, 0, now);
      var tokens := Refilled(b, now, rate, burst);
      if tokens < 1.0 then (t[ip := Bucket(tokens, now, b.connections, now)], false)
      else (t[ip := Bucket(tokens - 1.0, now, b.connections, now)], true)
  }

  /** `try_connection` */
  function Admit(policy: Policy, t: Table, now: real, ip: Address, max: nat): (Table, bool) {
    if max == 0 then (t, true)
    else if !Room(policy, t, ip) then (t, false)
    else
      var b := if ip in t then t[ip] else Bucket(0.0, now, 0, now);
      if b.connections >= max then (t[ip := b], false)
      else (t[ip := b.(connections := b.connections + 1, lastSeen := now)], true)
  }

  /** `release_connection` */
  function Leave(t: Table, now: real, ip: Address): Table {
    if ip in t then t[ip := t[ip].(connections := SaturatingSub(t[ip].connections, 1), lastSeen := now)] else t
  }

  /** An operation; with a limit of zero nothing is touched. */
  function Step(policy: Policy, rate: nat, burst: nat, t: Table, tick: Tick): (Table, bool) {
    match tick.op
    case Request(ip) =>
      if rate == 0 || burst == 0 then (t, true)
      else Allow(policy, rate, burst, Current(policy, t, tick.at), tick.at, ip)
    case Connect(ip, max) =>
      if max == 0 then (t, true) else Admit(policy, Current(policy, t, tick.at), tick.at, ip, max)
    case Release(ip) => (Leave(t, tick.at, ip), true)
  }

  function After(policy: Policy, rate: nat, burst: nat, t: Table, ticks: seq<Tick>): Table
    decreases |ticks|
  {
    if ticks == [] then t else After(policy, rate, burst, Step(policy, rate, burst, t, ticks[0]).0, ticks[1..])
  }

  function Decisions(policy: Policy, rate: nat, burst: nat, t: Table, ticks: seq<Tick>): seq<bool>
    decreases |ticks|
  {
    if ticks == [] then []
    else
      var s := Step(policy, rate, burst, t, ticks[0]);
      [s.1] + Decisions(policy, rate, burst, s.0, ticks[1..])
  }

  function One(b: bool): nat { if b then 1 else 0 }

  /** How many requests of an address are let through. */
  function Admissions(policy: Policy, rate: nat, burst: nat, t: Table, ticks: seq<Tick>, ip: Address): nat
    decreases |ticks|
  {
    if ticks == [] then 0
    else
      var s := Step(policy, rate, burst, t, ticks[0]);
      One(s.1 && ticks[0].op == Request(ip)) + Admissions(policy, rate, burst, s.0, ticks[1..], ip)
  }

  /** The clock runs from `start` to `end` without going back. */
  predicate Ordered(ticks: seq<Tick>, start: real, end: real) {
    if ticks == [] then start <= end
    else start <= ticks[0].at && Ordered(ticks[1..], ticks[0].at, end)
  }

  // ---------------------------------------------------------------- arithmetic

  lemma GainAdds(rate: nat, a: real, b: real)
    ensures Gain(rate, a + b) == Gain(rate, a) + Gain(rate, b)
  {
  }

  lemma GainGrows(rate: nat, a: real, b: real)
    requires a <= b
    ensures Gain(rate, a) <= Gain(rate, b)
  {
  }

  lemma GainNothing(rate: nat)
    ensures Gain(rate, 0.0) == 0.0
  {
  }

  lemma GainMinute(rate: nat)
    ensures Gain(rate, 60.0) == (60 * rate) as real
  {
  }

  // ---------------------------------------------------------------- the sliding bound

  /** Every bucket holds between no tokens and a full burst, and was last seen no earlier than it was filled. */
  ghost predicate Sane(t: Table, now: real, burst: nat) {
    forall ip :: ip in t ==> 0.0 <= t[ip].tokens <= burst as real && t[ip].updated <= t[ip].lastSeen <= now
  }

  /** The tokens an address would find at a time: a full burst if the limiter has no entry for it. */
  function Available(t: Table, ip: Address, now: real, rate: nat, burst: nat): real {
    if ip in t then Refilled(t[ip], now, rate, burst) else burst as real
  }

  lemma AvailableRange(t: Table, ip: Address, from: real, now: real, rate: nat, burst: nat)
    requires Sane(t, from, burst) && from <= now
    ensures 0.0 <= Available(t, ip, now, rate, burst) <= burst as real
  {
    if ip in t {
      GainNothing(rate);
      GainGrows(rate, 0.0, now - t[ip].updated);
    }
  }

  /** Waiting gains no more than the rate allows. */
  lemma AvailableGrows(t: Table, ip: Address, a: real, b: real, rate: nat, burst: nat)
    requires a <= b
    ensures Available(t, ip, b, rate, burst) <= Available(t, ip, a, rate, burst) + Gain(rate, b - a)
  {
  }

  /** With a burst of at most a minute's tokens, a bucket old enough to be evicted is full. */
  lemma StaleIsFull(b: Bucket, now: real, rate: nat, burst: nat)
    requires burst <= 60 * rate && Stale(b, now) && 0.0 <= b.tokens && b.updated <= b.lastSeen
    ensures Refilled(b, now, rate, burst) == burst as real
  {
    GainGrows(rate, 60.0, now - b.updated);
    GainMinute(rate);
  }

  lemma EvictionKeeps(policy: Policy, t: Table, from: real, now: real, ip: Address, rate: nat, burst: nat)
    requires Sane(t, from, burst) && from <= now && (policy.evicts ==> burst <= 60 * rate)
    ensures var t' := Current(policy, t, now);
            Sane(t', now, burst) && Available(t', ip, now, rate, burst) == Available(t, ip, now, rate, burst)
  {
    hide Refilled, Stale;
    if policy.evicts && ip in t && Stale(t[ip], now) {
      StaleIsFull(t[ip], now, rate, burst);
    }
  }

  lemma RefilledRange(b: Bucket, now: real, rate: nat, burst: nat)
    requires 0.0 <= b.tokens && b.updated <= now
    ensures 0.0 <= Refilled(b, now, rate, burst) <= burst as real
  {
    GainNothing(rate);
    GainGrows(rate, 0.0, now - b.updated);
  }

  lemma FreshBucket(now: real, tokens: real, connections: nat, lastSeen: real, rate: nat, burst: nat)
    requires 0.0 <= tokens <= burst as real
    ensures Refilled(Bucket(tokens, now, connections, lastSeen), now, rate, burst) == tokens
  {
    GainNothing(rate);
    hide Gain;
    assert now - now == 0.0;
  }

  lemma AllowUses(policy: Policy, rate: nat, burst: nat, t: Table, now: real, who: Address, ip: Address)
    requires Sane(t, now, burst) && burst > 0
    ensures var s := Allow(policy, rate, burst, t, now, who);
            && Sane(s.0, now, burst)
            && Available(s.0, ip, now, rate, burst)
               + One(s.1 && who == ip) as real <= Available(t, ip, now, rate, burst)
  {
    hide Refilled;
    if Room(policy, t, who) {
      var b := if who in t then t[who] else Bucket(burst as real, now, 0, now);
      RefilledRange(b, now, rate, burst);
      FreshBucket(now, burst as real, 0, now, rate, burst);
      var tokens := Refilled(b, now, rate, burst);
      FreshBucket(now, tokens, b.connections, now, rate, burst);
      if tokens >= 1.0 {
        FreshBucket(now, tokens - 1.0, b.connections, now, rate, burst);
      }
    }
  }

  lemma AdmitUses(policy: Policy, rate: nat, burst: nat, t: Table, now: real, who: Address, max: nat, ip: Address)
    requires Sane(t, now, burst)
    ensures var s := Admit(policy, t, now, who, max);
            Sane(s.0, now, burst) && Available(s.0, ip, now, rate, burst) <= Available(t, ip, now, rate, burst)
  {
  }

  /** No operation gives tokens away: what is let through is paid for. */
  lemma StepUses(policy: Policy, rate: nat, burst: nat, t: Table, from: real, tick: Tick, ip: Address)
    requires Sane(t, from, burst) && from <= tick.at && rate > 0 && burst > 0 && (policy.evicts ==> burst <= 60 * rate)
    ensures var s := Step(policy, rate, burst, t, tick);
            && Sane(s.0, tick.at, burst)
            && Available(s.0, ip, tick.at, rate, burst)
               + One(s.1 && tick.op == Request(ip)) as real <= Available(t, ip, tick.at, rate, burst)
  {
    hide Allow, Admit, Current, Available, Sane;
    EvictionKeeps(policy, t, from, tick.at, ip, rate, burst);
    var t' := Current(policy, t, tick.at);
    match tick.op
    case Request(who) => AllowUses(policy, rate, burst, t', tick.at, who, ip);
    case Connect(who, max) =>
      AdmitUses(policy, rate, burst, t', tick.at, who, max, ip);
      SaneLater(t, from, tick.at, burst);
    case Release(who) =>
      SaneLater(t, from, tick.at, burst);
      LeaveUses(t, tick.at, who, ip, rate, burst);
  }

  lemma SaneLater(t: Table, from: real, now: real, burst: nat)
    requires Sane(t, from, burst) && from <= now
    ensures Sane(t, now, burst)
  {
  }

  lemma LeaveUses(t: Table, now: real, who: Address, ip: Address, rate: nat, burst: nat)
    requires Sane(t, now, burst)
    ensures Sane(Leave(t, now, who), now, burst)
    ensures Available(Leave(t, now, who), ip, now, rate, burst) == Available(t, ip, now, rate, burst)
  {
  }

  lemma {:induction false} WindowUses(policy: Policy, rate: nat, burst: nat, t: Table, ticks: seq<Tick>, start: real,
      end: real, ip: Address)
    requires Sane(t, start, burst) && Ordered(ticks, start, end) && rate > 0 && burst > 0
             && (policy.evicts ==> burst <= 60 * rate)
    ensures Admissions(policy, rate, burst, t, ticks, ip) as real <= Available(t, ip, start, rate, burst)
            + Gain(rate, end - start)
    decreases |ticks|
  {
    hide Step, Available, Sane, Gain;
    if ticks == [] {
      AvailableRange(t, ip, start, start, rate, burst);
      GainNothing(rate);
      GainGrows(rate, 0.0, end - start);
    } else {
      var tick := ticks[0];
      StepUses(policy, rate, burst, t, start, tick, ip);
      var s := Step(policy, rate, burst, t, tick);
      WindowUses(policy, rate, burst, s.0, ticks[1..], tick.at, end, ip);
      AvailableGrows(t, ip, start, tick.at, rate, burst);
      GainAdds(rate, tick.at - start, end - tick.at);
      assert tick.at - start + (end - tick.at) == end - start;
    }
  }

  lemma {:induction false} RunSane(policy: Policy, rate: nat, burst: nat, t: Table, ticks: seq<Tick>, start: real,
      end: real)
    requires Sane(t, start, burst) && Ordered(ticks, start, end) && rate > 0 && burst > 0
             && (policy.evicts ==> burst <= 60 * rate)
    ensures Sane(After(policy, rate, burst, t, ticks), end, burst)
    decreases |ticks|
  {
    hide Step, Sane;
    if ticks == [] {
      SaneLater(t, start, end, burst);
    } else {
      StepUses(policy, rate, burst, t, start, ticks[0], 0);
      RunSane(policy, rate, burst, Step(policy, rate, burst, t, ticks[0]).0, ticks[1..], ticks[0].at, end);
    }
  }

  /** After any history, the requests of one address let through from `start` to `end`. */
  ghost predicate Bounded(policy: Policy, rate: nat, burst: nat, history: seq<Tick>, window: seq<Tick>, start: real,
      end: real, ip: Address) {
    Admissions(policy, rate, burst, After(policy, rate, burst, map[], history), window, ip) as real
    <= burst as real + Gain(rate, end - start)
  }

  /** Whatever came before and whatever else happens, an interval lets through at most a burst and the rate's worth. */
  lemma SlidingBound(policy: Policy, rate: nat, burst: nat, history: seq<Tick>, window: seq<Tick>, zero: real,
      start: real, end: real, ip: Address)
    requires Ordered(history, zero, start) && Ordered(window, start, end) && rate > 0 && burst > 0
    requires policy.evicts ==> burst <= 60 * rate
    ensures Bounded(policy, rate, burst, history, window, start, end, ip)
  {
    hide Step, Available, Gain;
    assert Sane(map[], zero, burst);
    RunSane(policy, rate, burst, map[], history, zero, start);
    var t := After(policy, rate, burst, map[], history);
    WindowUses(policy, rate, burst, t, window, start, end, ip);
    AvailableRange(t, ip, start, start, rate, burst);
  }

  // ---------------------------------------------------------------- when the bound fails

  /** The same request again and again, all at one time. */
  function Volley(at: real, ip: Address, n: nat): (ticks: seq<Tick>)
    ensures |ticks| == n
  {
    seq(n, i => Tick(at, Request(ip)))
  }

  lemma VolleyTail(at: real, ip: Address, n: nat)
    requires n > 0
    ensures Volley(at, ip, n)[0] == Tick(at, Request(ip)) && Volley(at, ip, n)[1..] == Volley(at, ip, n - 1)
  {
  }

  lemma OneShot(rate: nat, burst: nat, t: Table, now: real, ip: Address, k: nat)
    requires rate > 0 && 0 < k <= burst
    requires var t' := Evict(t, now); t' == map[ip := Bucket(k as real, now, 0, now)] || (t' == map[] && k == burst)
    ensures Step(ACTUAL, rate, burst, t, Tick(now, Request(ip)))
            == (map[ip := Bucket((k - 1) as real, now, 0, now)], true)
  {
    hide Refilled;
    FreshBucket(now, k as real, 0, now, rate, burst);
    var t' := Evict(t, now);
    assert |t'| <= 1;
    var next := Bucket((k - 1) as real, now, 0, now);
    assert t'[ip := next] == map[ip := next];
  }

  lemma NotStaleNow(ip: Address, tokens: real, now: real)
    ensures var t: Table := map[ip := Bucket(tokens, now, 0, now)]; Evict(t, now) == t
  {
  }

  /** As many requests at one time as there are tokens: all are let through. */
  lemma {:induction false} VolleyPasses(rate: nat, burst: nat, t: Table, now: real, ip: Address, k: nat, n: nat)
    requires rate > 0 && n <= k <= burst
    requires var t' := Evict(t, now); t' == map[ip := Bucket(k as real, now, 0, now)] || (t' == map[] && k == burst)
    ensures Admissions(ACTUAL, rate, burst, t, Volley(now, ip, n), ip) == n
    ensures n > 0 ==>
              After(ACTUAL, rate, burst, t, Volley(now, ip, n)) == map[ip := Bucket((k - n) as real, now, 0, now)]
    decreases n
  {
    hide Step, Evict;
    if n > 0 {
      VolleyTail(now, ip, n);
      OneShot(rate, burst, t, now, ip, k);
      var t1: Table := map[ip := Bucket((k - 1) as real, now, 0, now)];
      NotStaleNow(ip, (k - 1) as real, now);
      VolleyPasses(rate, burst, t1, now, ip, k - 1, n - 1);
    }
  }

  lemma {:induction false} AdmissionsAppend(policy: Policy, rate: nat, burst: nat, t: Table, a: seq<Tick>, b: seq<Tick>,
      ip: Address)
    ensures Admissions(policy, rate, burst, t, a + b, ip)
            == Admissions(policy, rate, burst, t, a, ip)
                + Admissions(policy, rate, burst, After(policy, rate, burst, t, a), b, ip)
    decreases |a|
  {
    hide Step;
    if a == [] {
      assert a + b == b;
    } else {
      assert (a + b)[1..] == a[1..] + b && (a + b)[0] == a[0];
      AdmissionsAppend(policy, rate, burst, Step(policy, rate, burst, t, a[0]).0, a[1..], b, ip);
    }
  }

  /** A full burst, a minute's pause, and another full burst. */
  function TwoVolleys(ip: Address, burst: nat): seq<Tick> {
    Volley(0.0, ip, burst) + Volley(60.0, ip, burst)
  }

  lemma {:induction false} VolleyOrdered(at: real, ip: Address, n: nat, rest: seq<Tick>, start: real, end: real)
    requires start <= at && Ordered(rest, at, end)
    ensures Ordered(Volley(at, ip, n) + rest, start, end)
    decreases n
  {
    if n == 0 {
      assert Volley(at, ip, n) + rest == rest;
      OrderedEarlier(rest, at, start, end);
    } else {
      VolleyTail(at, ip, n);
      VolleyOrdered(at, ip, n - 1, rest, at, end);
      assert (Volley(at, ip, n) + rest)[1..] == Volley(at, ip, n - 1) + rest;
    }
  }

  lemma OrderedEarlier(ticks: seq<Tick>, start: real, earlier: real, end: real)
    requires earlier <= start && Ordered(ticks, start, end)
    ensures Ordered(ticks, earlier, end)
  {
  }

  lemma TwoVolleysOrdered(ip: Address, burst: nat)
    ensures Ordered(TwoVolleys(ip, burst), 0.0, 60.0)
  {
    VolleyOrdered(60.0, ip, burst, [], 0.0, 60.0);
    assert Volley(60.0, ip, burst) + [] == Volley(60.0, ip, burst);
    VolleyOrdered(0.0, ip, burst, Volley(60.0, ip, burst), 0.0, 60.0);
  }

  /** The limiter lets both bursts through: the minute's pause made it forget the first. */
  lemma BothPass(rate: nat, burst: nat, ip: Address)
    requires rate > 0 && burst > 0
    ensures Admissions(ACTUAL, rate, burst, map[], TwoVolleys(ip, burst), ip) == 2 * burst
  {
    hide Step;
    var empty: Table := map[];
    assert Evict(empty, 0.0) == map[];
    VolleyPasses(rate, burst, empty, 0.0, ip, burst, burst);
    var t := After(ACTUAL, rate, burst, empty, Volley(0.0, ip, burst));
    assert Evict(t, 60.0) == map[];
    VolleyPasses(rate, burst, t, 60.0, ip, burst, burst);
    AdmissionsAppend(ACTUAL, rate, burst, empty, Volley(0.0, ip, burst), Volley(60.0, ip, burst), ip);
  }

  /** The bound, for every run and interval. */
  ghost predicate AlwaysBounded(rate: nat, burst: nat) {
    forall history, window, zero, start, end, ip ::
      Ordered(history, zero, start) && Ordered(window, start, end) ==>
          Bounded(ACTUAL, rate, burst, history, window, start, end, ip)
  }

  lemma TwoVolleysUnbounded(rate: nat, burst: nat, ip: Address)
    requires rate > 0 && burst > 60 * rate
    ensures Ordered([], 0.0, 0.0) && Ordered(TwoVolleys(ip, burst), 0.0, 60.0)
    ensures !Bounded(ACTUAL, rate, burst, [], TwoVolleys(ip, burst), 0.0, 60.0, ip)
  {
    TwoVolleysOrdered(ip, burst);
    BothPass(rate, burst, ip);
    GainMinute(rate);
    assert 60.0 - 0.0 == 60.0;
    hide Gain;
  }

  /** The bound holds of every run exactly if a burst is at most a minute's worth of tokens. */
  lemma BoundExact(rate: nat, burst: nat)
    requires rate > 0 && burst > 0
    ensures AlwaysBounded(rate, burst) <==> burst <= 60 * rate
  {
    hide Ordered, Bounded;
    if burst <= 60 * rate {
      forall history, window, zero, start, end, ip | Ordered(history, zero, start) && Ordered(window, start, end)
        ensures Bounded(ACTUAL, rate, burst, history, window, start, end, ip)
      {
        SlidingBound(ACTUAL, rate, burst, history, window, zero, start, end, ip);
      }
    } else {
      TwoVolleysUnbounded(rate, burst, 0);
    }
  }

  // ---------------------------------------------------------------- when eviction is invisible

  predicate RequestsOnly(ticks: seq<Tick>) {
    forall i :: 0 <= i < |ticks| ==> ticks[i].op.Request?
  }

  /** No request finds the table full. */
  predicate Roomy(rate: nat, burst: nat, t: Table, ticks: seq<Tick>)
    decreases |ticks|
  {
    ticks == [] ||
    (&& Room(ACTUAL, Evict(t, ticks[0].at), ticks[0].op.ip)
     && Roomy(rate, burst, Step(ACTUAL, rate, burst, t, ticks[0]).0, ticks[1..]))
  }

  /** The two tables agree on what one of them still has; what it has forgotten is full again in the other. */
  ghost predicate Agree(t: Table, u: Table, now: real, rate: nat, burst: nat) {
    && Sane(u, now, burst)
    && (forall ip :: ip in u ==> u[ip].connections == 0)
    && (forall ip :: ip in t ==> ip in u && t[ip] == u[ip])
    && (forall ip :: ip in u && ip !in t ==> u[ip].tokens + Gain(rate, now - u[ip].updated) >= burst as real)
  }

  lemma AgreeLater(t: Table, u: Table, from: real, now: real, rate: nat, burst: nat)
    requires Agree(t, u, from, rate, burst) && from <= now && burst <= 60 * rate
    ensures Agree(Evict(t, now), u, now, rate, burst)
  {
    var t' := Evict(t, now);
    forall ip | ip in u && ip !in t' ensures u[ip].tokens + Gain(rate, now - u[ip].updated) >= burst as real {
      if ip in t {
        StaleIsFull(u[ip], now, rate, burst);
      } else {
        GainGrows(rate, from - u[ip].updated, now - u[ip].updated);
      }
    }
  }

  lemma SameOutcome(t: Table, u: Table, now: real, rate: nat, burst: nat, ip: Address)
    requires Room(ACTUAL, t, ip) && (ip in t ==> ip in u && t[ip] == u[ip])
    requires ip in u && ip !in t ==>
               u[ip].connections == 0 && u[ip].tokens + Gain(rate, now - u[ip].updated) >= burst as real
    ensures var a := Allow(ACTUAL, rate, burst, t, now, ip); var b := Allow(FORGETLESS, rate, burst, u, now, ip);
            ip in a.0 && ip in b.0 && a.1 == b.1 && a.0[ip] == b.0[ip]
  {
    GainNothing(rate);
    hide Gain;
    assert now - now == 0.0;
  }

  lemma AgreeUpdate(t: Table, u: Table, now: real, rate: nat, burst: nat, ip: Address, b: Bucket)
    requires Agree(t, u, now, rate, burst) && b.connections == 0
    requires Sane(u[ip := b], now, burst)
    ensures Agree(t[ip := b], u[ip := b], now, rate, burst)
  {
  }

  lemma SameAllowance(t: Table, u: Table, now: real, rate: nat, burst: nat, ip: Address)
    requires Agree(t, u, now, rate, burst) && Room(ACTUAL, t, ip) && burst > 0
    ensures var a := Allow(ACTUAL, rate, burst, t, now, ip); var b := Allow(FORGETLESS, rate, burst, u, now, ip);
            a.1 == b.1 && Agree(a.0, b.0, now, rate, burst)
  {
    SameOutcome(t, u, now, rate, burst, ip);
    AllowUses(FORGETLESS, rate, burst, u, now, ip, ip);
    AllowTouches(ACTUAL, rate, burst, t, now, ip);
    AllowTouches(FORGETLESS, rate, burst, u, now, ip);
    assert ip in u ==> u[ip].connections == 0;
    hide Gain, Allow, Sane, Agree;
    var a, b := Allow(ACTUAL, rate, burst, t, now, ip).0, Allow(FORGETLESS, rate, burst, u, now, ip).0;
    var x := b[ip];
    assert a == t[ip := x] && b == u[ip := x];
    AgreeUpdate(t, u, now, rate, burst, ip, x);
  }

  lemma AllowTouches(policy: Policy, rate: nat, burst: nat, t: Table, now: real, ip: Address)
    requires Room(policy, t, ip)
    ensures var s := Allow(policy, rate, burst, t, now, ip);
            ip in s.0 && s.0 == t[ip := s.0[ip]] && s.0[ip].connections == if ip in t then t[ip].connections else 0
  {
  }

  lemma {:induction false} SameDecisions(rate: nat, burst: nat, t: Table, u: Table, ticks: seq<Tick>, start: real,
      end: real)
    requires rate > 0 && 0 < burst <= 60 * rate && Agree(t, u, start, rate, burst)
    requires Ordered(ticks, start, end) && RequestsOnly(ticks) && Roomy(rate, burst, t, ticks)
    ensures Decisions(ACTUAL, rate, burst, t, ticks) == Decisions(FORGETLESS, rate, burst, u, ticks)
    decreases |ticks|
  {
    hide Allow, Agree, Evict;
    if ticks != [] {
      var now, ip := ticks[0].at, ticks[0].op.ip;
      AgreeLater(t, u, start, now, rate, burst);
      SameAllowance(Evict(t, now), u, now, rate, burst, ip);
      SameDecisions(rate, burst, Step(ACTUAL, rate, burst, t, ticks[0]).0, Step(FORGETLESS, rate, burst, u, ticks[0]).0,
          ticks[1..], now, end);
    }
  }

  /** In every run of requests that finds room, forgetting old entries changes no decision. */
  ghost predicate EvictionInvisible(rate: nat, burst: nat) {
    forall ticks, start, end ::
      Ordered(ticks, start, end) && RequestsOnly(ticks) && Roomy(rate, burst, map[], ticks) ==>
        Decisions(ACTUAL, rate, burst, map[], ticks) == Decisions(FORGETLESS, rate, burst, map[], ticks)
  }

  lemma {:induction false} SameDecisionsSameCount(p: Policy, q: Policy, rate: nat, burst: nat, t: Table, u: Table,
      ticks: seq<Tick>, ip: Address)
    requires Decisions(p, rate, burst, t, ticks) == Decisions(q, rate, burst, u, ticks)
    ensures Admissions(p, rate, burst, t, ticks, ip) == Admissions(q, rate, burst, u, ticks, ip)
    decreases |ticks|
  {
    hide Step;
    if ticks != [] {
      var a, b := Step(p, rate, burst, t, ticks[0]), Step(q, rate, burst, u, ticks[0]);
      var da, db := Decisions(p, rate, burst, t, ticks), Decisions(q, rate, burst, u, ticks);
      assert da[0] == a.1 && db[0] == b.1 && da[1..] == Decisions(p, rate, burst, a.0, ticks[1..])
             && db[1..] == Decisions(q, rate, burst, b.0, ticks[1..]);
      SameDecisionsSameCount(p, q, rate, burst, a.0, b.0, ticks[1..], ip);
    }
  }

  lemma {:induction false} AloneRoomy(rate: nat, burst: nat, t: Table, ticks: seq<Tick>, ip: Address)
    requires t.Keys <= {ip} && forall i :: 0 <= i < |ticks| ==> ticks[i].op == Request(ip)
    ensures Roomy(rate, burst, t, ticks)
    decreases |ticks|
  {
    if ticks != [] {
      var t' := Evict(t, ticks[0].at);
      assert t'.Keys <= {ip};
      SmallTable(t', ip);
      var s := Step(ACTUAL, rate, burst, t, ticks[0]);
      assert s.0.Keys <= {ip};
      hide Step, Evict;
      AloneRoomy(rate, burst, s.0, ticks[1..], ip);
    }
  }

  lemma SmallTable(t: Table, ip: Address)
    requires t.Keys <= {ip}
    ensures |t| <= 1
  {
    if ip in t {
      assert t.Keys == {ip} && |t| == |t.Keys|;
    } else {
      assert t.Keys == {} && |t| == |t.Keys|;
    }
  }

  lemma TwoVolleysVisible(rate: nat, burst: nat, ip: Address)
    requires rate > 0 && burst > 60 * rate
    ensures var ticks := TwoVolleys(ip, burst);
            && Ordered(ticks, 0.0, 60.0) && RequestsOnly(ticks) && Roomy(rate, burst, map[], ticks)
            && Decisions(ACTUAL, rate, burst, map[], ticks) != Decisions(FORGETLESS, rate, burst, map[], ticks)
  {
    var ticks := TwoVolleys(ip, burst);
    AloneRoomy(rate, burst, map[], ticks, ip);
    TwoVolleysUnbounded(rate, burst, ip);
    SlidingBound(FORGETLESS, rate, burst, [], ticks, 0.0, 0.0, 60.0, ip);
    if Decisions(ACTUAL, rate, burst, map[], ticks) == Decisions(FORGETLESS, rate, burst, map[], ticks) {
      SameDecisionsSameCount(ACTUAL, FORGETLESS, rate, burst, map[], map[], ticks, ip);
      assert false;
    }
  }

  /** Eviction is invisible exactly if a burst is at most a minute's worth of tokens. */
  lemma InvisibleExact(rate: nat, burst: nat)
    requires rate > 0 && burst > 0
    ensures EvictionInvisible(rate, burst) <==> burst <= 60 * rate
  {
    if burst <= 60 * rate {
      forall ticks, start, end | Ordered(ticks, start, end) && RequestsOnly(ticks) && Roomy(rate, burst, map[], ticks)
        ensures Decisions(ACTUAL, rate, burst, map[], ticks) == Decisions(FORGETLESS, rate, burst, map[], ticks)
      {
        assert Agree(map[], map[], start, rate, burst);
        SameDecisions(rate, burst, map[], map[], ticks, start, end);
      }
    } else {
      hide Ordered, RequestsOnly, Roomy, Decisions, TwoVolleys;
      TwoVolleysVisible(rate, burst, 0);
    }
  }

  // ---------------------------------------------------------------- connections

  /** A connection let in and later released leaves the address with as many connections as before. */
  lemma ReleaseUndoes(t: Table, now: real, later: real, ip: Address, max: nat)
    requires Admit(ACTUAL, t, now, ip, max).1 && max > 0
    ensures var t' := Leave(Admit(ACTUAL, t, now, ip, max).0, later, ip);
            && t'.Keys == t.Keys + {ip}
            && t'[ip].connections == (if ip in t then t[ip].connections else 0)
            && (forall a :: a in t && a != ip ==> t'[a] == t[a])
            && (ip in t ==> t'[ip].tokens == t[ip].tokens && t'[ip].updated == t[ip].updated)
  {
  }

  // ---------------------------------------------------------------- imperative form

  /** `AdmissionLimiter`, whose one table is updated in place under its lock. */
  class AdmissionLimiter {
    var buckets: Table

    constructor ()
      ensures buckets == map[]
    {
      buckets := map[];
    }

    /** `retain`: every entry is looked at once. */
    method EvictOld(now: real)
      modifies this
      ensures buckets == Evict(old(buckets), now)
    {
      var todo := buckets.Keys;
      while todo != {}
        invariant todo <= buckets.Keys <= old(buckets).Keys
        invariant forall ip :: ip in buckets ==> buckets[ip] == old(buckets)[ip]
        invariant forall ip :: ip in old(buckets).Keys - todo ==> (ip in buckets <==> !Stale(old(buckets)[ip], now))
        decreases todo
      {
        var ip :| ip in todo;
        if Stale(buckets[ip], now) {
          buckets := buckets - {ip};
        }
        todo := todo - {ip};
      }
    }

    method AllowRequest(now: real, ip: Address, rate: nat, burst: nat) returns (allowed: bool)
      modifies this
      ensures (buckets, allowed) == Step(ACTUAL, rate, burst, old(buckets), Tick(now, Request(ip)))
    {
      if rate == 0 || burst == 0 {
        return true;
      }
      EvictOld(now);
      if |buckets| >= MAX_ENTRIES && ip !in buckets {
        return false;
      }
      var bucket := if ip in buckets then buckets[ip] else Bucket(burst as real, now, 0, now);
      var tokens := Lesser(bucket.tokens + Gain(rate, now - bucket.updated), burst as real);
      bucket := bucket.(tokens := tokens, updated := now, lastSeen := now);
      if tokens < 1.0 {
        allowed := false;
      } else {
        bucket := bucket.(tokens := tokens - 1.0);
        allowed := true;
      }
      buckets := buckets[ip := bucket];
    }

    method TryConnection(now: real, ip: Address, max: nat) returns (allowed: bool)
      modifies this
      ensures forall rate, burst ::
                (buckets, allowed) == Step(ACTUAL, rate, burst, old(buckets), Tick(now, Connect(ip, max)))
      ensures allowed && max > 0 ==> ip in buckets && 0 < buckets[ip].connections <= max
    {
      if max == 0 {
        return true;
      }
      EvictOld(now);
      if |buckets| >= MAX_ENTRIES && ip !in buckets {
        return false;
      }
      var bucket := if ip in buckets then buckets[ip] else Bucket(0.0, now, 0, now);
      if bucket.connections >= max {
        buckets := buckets[ip := bucket];
        return false;
      }
      buckets := buckets[ip := bucket.(connections := bucket.connections + 1, lastSeen := now)];
      return true;
    }

    method ReleaseConnection(now: real, ip: Address)
      modifies this
      ensures forall rate, burst ::
                (buckets, true) == Step(ACTUAL, rate, burst, old(buckets), Tick(now, Release(ip)))
      ensures buckets.Keys == old(buckets).Keys && forall a :: a in buckets && a != ip ==> buckets[a] == old(buckets)[a]
      ensures ip in buckets ==> buckets[ip].connections == SaturatingSub(old(buckets)[ip].connections, 1)
      ensures forall a, at, rate, burst ::
                Available(buckets, a, at, rate, burst) == Available(old(buckets), a, at, rate, burst)
    {
      if ip in buckets {
        var bucket := buckets[ip];
        buckets := buckets[ip := bucket.(connections := SaturatingSub(bucket.connections, 1), lastSeen := now)];
      }
    }
  }
}
