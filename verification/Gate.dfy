/**
  The guess ledger of the passphrase gate: every attempt is charged when it starts, the wait
  doubles with the charges in the last minute, and a verified login takes its charge back.
  Times are nanoseconds.
 */
module Gate {
  import opened Basics

  const SECOND := 1_000_000_000
  const FREE := 3
  const WINDOW := 60 * SECOND
  const COOLDOWN_MAX := 60 * SECOND

  datatype State = State(failures: seq<int>, until: Option<int>)

  // The wait after so many charges: 1, 2, 4, ... seconds past the free ones, at most a minute.
  function Cooldown(n: nat): (w: nat)
    ensures w <= COOLDOWN_MAX && (w == 0 <==> n <= FREE)
  {
    if n <= FREE then 0
    else if n > FREE + 20 then COOLDOWN_MAX
    else
      var wait := SECOND * Power(n - FREE - 1);
      if wait > COOLDOWN_MAX then COOLDOWN_MAX else wait
  }

  function Power(k: nat): (p: nat)
    ensures p >= 1
  {
    if k == 0 then 1 else 2 * Power(k - 1)
  }

  lemma {:induction false} PowerGrows(j: nat, k: nat)
    requires j <= k
    ensures Power(j) <= Power(k)
    decreases k - j
  {
    if j < k { PowerGrows(j, k - 1); }
  }

  lemma CooldownGrows(m: nat, n: nat)
    requires m <= n
    ensures Cooldown(m) <= Cooldown(n)
  {
    if m > FREE && n <= FREE + 20 { PowerGrows(m - FREE - 1, n - FREE - 1); }
  }

  lemma CooldownTable()
    ensures Cooldown(4) == 1 * SECOND && Cooldown(5) == 2 * SECOND && Cooldown(6) == 4 * SECOND
    ensures Cooldown(7) == 8 * SECOND && Cooldown(8) == 16 * SECOND && Cooldown(9) == 32 * SECOND
  {
    assert Power(0) == 1 && Power(1) == 2 && Power(2) == 4 && Power(3) == 8;
    assert Power(4) == 16 && Power(5) == 32;
  }

  // ---------------------------------------------------------------- operations

  ghost function Recent(failures: seq<int>, now: int): seq<int> {
    if failures != [] && failures[0] < now - WINDOW then Recent(failures[1..], now) else failures
  }

  ghost function Pruned(s: State, now: int): State { s.(failures := Recent(s.failures, now)) }

  ghost function Checked(s: State, now: int): State {
    var p := Pruned(s, now);
    if p.failures == [] then p.(until := None) else p
  }

  ghost predicate Allowed(s: State, now: int) {
    var p := Checked(s, now);
    p.until == None || now >= p.until.value
  }

  ghost function Charged(s: State, now: int): State {
    var failures := Recent(s.failures, now) + [now];
    State(failures, if Cooldown(|failures|) > 0 then Some(now + Cooldown(|failures|)) else s.until)
  }

  // A check, and a charge if it is allowed.
  ghost function Attempt(s: State, now: int): State {
    if Allowed(s, now) then Charged(Checked(s, now), now) else Checked(s, now)
  }

  ghost function Refund(s: State): State {
    var failures := if s.failures == [] then [] else s.failures[..|s.failures| - 1];
    State(failures, if Cooldown(|failures|) == 0 then None else s.until)
  }

  // ---------------------------------------------------------------- the invariant

  // Each charge waited out the cooldown of the ones before it.
  ghost predicate Spaced(f: seq<int>) {
    forall i :: 0 < i < |f| ==> f[i] - f[i - 1] >= Cooldown(i)
  }

  ghost predicate Inv(s: State, clock: int) {
    && Spaced(s.failures)
    && (s.failures != [] ==> s.failures[|s.failures| - 1] <= clock)
    && (Cooldown(|s.failures|) > 0 ==>
          s.until.Some? && s.until.value >= s.failures[|s.failures| - 1] + Cooldown(|s.failures|))
    && |s.failures| <= 9
    && (s.until.Some? ==> s.until.value <= clock + 32 * SECOND)
  }

  lemma SpacedTail(f: seq<int>)
    requires Spaced(f) && f != []
    ensures Spaced(f[1..])
  {
    forall i | 0 < i < |f[1..]| ensures f[1..][i] - f[1..][i - 1] >= Cooldown(i) {
      CooldownGrows(i, i + 1);
      assert f[i + 1] - f[i] >= Cooldown(i + 1);
    }
  }

  // Pruning leaves a suffix, all within the window, and the spacing.
  lemma {:induction false} RecentIs(f: seq<int>, now: int) returns (k: nat)
    requires Spaced(f)
    ensures k <= |f| && Recent(f, now) == f[k..] && Spaced(f[k..])
    ensures forall i :: 0 <= i < k ==> f[i] < now - WINDOW
    ensures k < |f| ==> f[k] >= now - WINDOW
    decreases |f|
  {
    k := 0;
    if f != [] && f[0] < now - WINDOW {
      SpacedTail(f);
      var j := RecentIs(f[1..], now);
      k := j + 1;
      assert f[1..][j..] == f[k..];
      assert forall i :: 1 <= i < k ==> f[i] == f[1..][i - 1];
    } else {
      assert f[0..] == f;
    }
  }

  // Ten spaced charges take more than the window.
  lemma TenTakeLonger(f: seq<int>)
    requires Spaced(f) && |f| >= 10
    ensures f[9] - f[0] > WINDOW
  {
    CooldownTable();
    assert f[1] >= f[0] && f[2] >= f[1] && f[3] >= f[2];
    assert f[4] - f[3] >= Cooldown(4) && f[5] - f[4] >= Cooldown(5) && f[6] - f[5] >= Cooldown(6);
    assert f[7] - f[6] >= Cooldown(7) && f[8] - f[7] >= Cooldown(8) && f[9] - f[8] >= Cooldown(9);
  }

  lemma CheckedKeeps(s: State, clock: int, now: int)
    requires Inv(s, clock) && clock <= now
    ensures Inv(Checked(s, now), now)
  {
    hide Recent, Cooldown, Spaced;
    var k := RecentIs(s.failures, now);
    var left := s.failures[k..];
    CooldownGrows(|left|, |s.failures|);
    assert left != [] ==> left[|left| - 1] == s.failures[|s.failures| - 1];
    assert left == [] ==> Cooldown(|left|) == 0;
  }

  // The charge prunes again, which finds nothing.
  lemma {:induction false} RecentTwice(f: seq<int>, now: int)
    ensures Recent(Recent(f, now), now) == Recent(f, now)
    decreases |f|
  {
    if f != [] && f[0] < now - WINDOW { RecentTwice(f[1..], now); }
  }

  lemma ChargeSpaced(c: State, now: int)
    requires Inv(c, now) && (c.until == None || now >= c.until.value)
    requires c.failures != [] ==> c.failures[0] >= now - WINDOW
    ensures Spaced(c.failures + [now]) && |c.failures| < 9
  {
    var g := c.failures + [now];
    forall i | 0 < i < |g| ensures g[i] - g[i - 1] >= Cooldown(i) {
      if i < |g| - 1 { assert c.failures[i] - c.failures[i - 1] >= Cooldown(i); }
    }
    if |g| >= 10 { TenTakeLonger(g); }
  }

  lemma ChargeKeeps(c: State, now: int)
    requires Inv(c, now) && (c.until == None || now >= c.until.value) && Recent(c.failures, now) == c.failures
    ensures Inv(Charged(c, now), now)
  {
    FirstIsRecent(c.failures, now);
    ChargeSpaced(c, now);
    CooldownGrows(|c.failures| + 1, 9);
    CooldownTable();
    hide Spaced, Recent;
  }

  lemma AttemptKeeps(s: State, clock: int, now: int)
    requires Inv(s, clock) && clock <= now
    ensures Inv(Attempt(s, now), now)
  {
    hide Inv, Recent, Charged;
    CheckedKeeps(s, clock, now);
    RecentTwice(s.failures, now);
    if Allowed(s, now) { ChargeKeeps(Checked(s, now), now); }
  }

  lemma RefundKeeps(s: State, clock: int)
    requires Inv(s, clock)
    ensures Inv(Refund(s), clock)
  {
    if s.failures != [] {
      var f := s.failures[..|s.failures| - 1];
      CooldownGrows(|f|, |s.failures|);
      assert f != [] ==> s.failures[|f|] - s.failures[|f| - 1] >= Cooldown(|f|);
    }
  }

  // ---------------------------------------------------------------- runs

  datatype Event = EvAttempt(now: int) | EvRefund

  ghost function Step(s: State, e: Event): State {
    match e
    case EvAttempt(now) => Attempt(s, now)
    case EvRefund => Refund(s)
  }

  ghost function Clock(events: seq<Event>, start: int): int {
    if events == [] then start
    else
      var last := events[|events| - 1];
      if last.EvAttempt? then last.now else Clock(events[..|events| - 1], start)
  }

  ghost predicate Monotone(events: seq<Event>, start: int) {
    events == [] ||
    var before, last := events[..|events| - 1], events[|events| - 1];
    Monotone(before, start) && (last.EvAttempt? ==> last.now >= Clock(before, start))
  }

  ghost function Run(events: seq<Event>): State {
    if events == [] then State([], None) else Step(Run(events[..|events| - 1]), events[|events| - 1])
  }

  // Under a clock that does not go back, the ledger never holds more than nine charges and
  // never imposes more than 32 seconds.
  lemma {:induction false} RunKeeps(events: seq<Event>, start: int)
    requires Monotone(events, start)
    ensures Inv(Run(events), Clock(events, start))
    decreases |events|
  {
    if events != [] {
      var before, last := events[..|events| - 1], events[|events| - 1];
      RunKeeps(before, start);
      match last
      case EvAttempt(now) => AttemptKeeps(Run(before), Clock(before, start), now);
      case EvRefund => RefundKeeps(Run(before), Clock(before, start));
    }
  }

  // Nobody is kept waiting for longer than 32 seconds.
  lemma WaitsAreShort(s: State, clock: int, now: int)
    requires Inv(s, clock) && now >= clock + 32 * SECOND
    ensures Allowed(s, now)
  {
  }

  // An attempt that is refused leaves no charge, and one that is let through leaves one.
  lemma ChargesExactly(s: State, now: int)
    ensures Attempt(s, now).failures == Recent(s.failures, now) + if Allowed(s, now) then [now] else []
  {
    RecentTwice(s.failures, now);
  }

  // What the ledger no longer holds is more than a window old.
  ghost predicate Remembers(s: State, passed: seq<int>, clock: int) {
    var n := |s.failures|;
    && n <= |passed| && s.failures == passed[|passed| - n..]
    && forall i :: 0 <= i < |passed| - n ==> passed[i] < clock - WINDOW
  }

  lemma CheckedRemembers(s: State, passed: seq<int>, clock: int, now: int)
    requires Inv(s, clock) && clock <= now && Remembers(s, passed, clock)
    ensures Remembers(Checked(s, now), passed, now)
  {
    var k := RecentIs(s.failures, now);
    var gone := |passed| - |s.failures|;
    assert s.failures[k..] == passed[gone + k..];
    forall i | gone <= i < gone + k ensures passed[i] < now - WINDOW {
      assert passed[i] == s.failures[i - gone];
    }
  }

  // No ten of these times lie within one window.
  ghost predicate Rare(passed: seq<int>) {
    forall i :: 0 <= i && i + 9 < |passed| ==> passed[i + 9] - passed[i] > WINDOW
  }

  lemma ChargeRemembers(c: State, passed: seq<int>, now: int)
    requires Remembers(c, passed, now) && Rare(passed) && Recent(c.failures, now) == c.failures && |c.failures| < 9
    ensures Remembers(Charged(c, now), passed + [now], now) && Rare(passed + [now])
  {
    var more, n := passed + [now], |c.failures| + 1;
    assert c.failures + [now] == more[|more| - n..];
    forall i | 0 <= i && i + 9 < |more| ensures more[i + 9] - more[i] > WINDOW {
      if i + 9 == |more| - 1 {
        assert i < |passed| - |c.failures|;
      } else {
        assert passed[i + 9] - passed[i] > WINDOW;
      }
    }
  }

  lemma AttemptRemembers(s: State, passed: seq<int>, clock: int, now: int)
    requires Inv(s, clock) && clock <= now && Remembers(s, passed, clock) && Rare(passed)
    ensures var more := passed + if Allowed(s, now) then [now] else [];
      Remembers(Attempt(s, now), more, now) && Rare(more)
  {
    assert passed + [] == passed;
    hide Inv, Recent, Charged, Remembers, Rare;
    CheckedRemembers(s, passed, clock, now);
    CheckedKeeps(s, clock, now);
    RecentTwice(s.failures, now);
    if Allowed(s, now) {
      var c := Checked(s, now);
      FirstIsRecent(c.failures, now);
      ChargeSpaced(c, now);
      ChargeRemembers(c, passed, now);
    }
  }

  lemma FirstIsRecent(f: seq<int>, now: int)
    requires Recent(f, now) == f
    ensures f != [] ==> f[0] >= now - WINDOW
  {
    if f != [] && f[0] < now - WINDOW { RecentShorter(f[1..], now); }
  }

  lemma {:induction false} RecentShorter(f: seq<int>, now: int)
    ensures |Recent(f, now)| <= |f|
    decreases |f|
  {
    if f != [] && f[0] < now - WINDOW { RecentShorter(f[1..], now); }
  }

  // The times of the attempts let through whose charge still stands: a refund takes back the
  // latest one, if the ledger has any.
  ghost function Standing(events: seq<Event>): seq<int> {
    if events == [] then []
    else
      var before, last := events[..|events| - 1], events[|events| - 1];
      var times := Standing(before);
      match last
      case EvAttempt(now) => times + if Allowed(Run(before), now) then [now] else []
      case EvRefund => if Run(before).failures != [] && times != [] then times[..|times| - 1] else times
  }

  lemma RefundRemembers(s: State, times: seq<int>, clock: int)
    requires Remembers(s, times, clock) && Rare(times)
    ensures var left := if s.failures != [] && times != [] then times[..|times| - 1] else times;
      Remembers(Refund(s), left, clock) && Rare(left)
  {
  }

  lemma StandingStep(events: seq<Event>, last: Event, start: int)
    requires Inv(Run(events), Clock(events, start)) && (last.EvAttempt? ==> last.now >= Clock(events, start))
    requires Rare(Standing(events)) && Remembers(Run(events), Standing(events), Clock(events, start))
    ensures var more := events + [last];
      Rare(Standing(more)) && Remembers(Run(more), Standing(more), Clock(more, start))
  {
    assert (events + [last])[..|events|] == events;
    hide Inv, Remembers, Rare, Attempt, Refund, Allowed;
    match last
    case EvAttempt(now) => AttemptRemembers(Run(events), Standing(events), Clock(events, start), now);
    case EvRefund => RefundRemembers(Run(events), Standing(events), Clock(events, start));
  }

  // Over any run, refunds and all, no ten charges that stand lie within one window.
  lemma {:induction false} ChargesAreRare(events: seq<Event>, start: int)
    requires Monotone(events, start)
    ensures Rare(Standing(events)) && Remembers(Run(events), Standing(events), Clock(events, start))
    decreases |events|
  {
    if events != [] {
      var before, last := events[..|events| - 1], events[|events| - 1];
      assert before + [last] == events;
      hide Inv, Remembers, Rare, Standing, Run, Clock;
      ChargesAreRare(before, start);
      RunKeeps(before, start);
      StandingStep(before, last, start);
    }
  }

  // ---------------------------------------------------------------- the ledger as the daemon runs it

  class GateLedger {
    var failures: seq<int>
    var until: Option<int>

    ghost function Abs(): State
      reads this
    {
      State(failures, until)
    }

    constructor ()
      ensures Abs() == State([], None)
    {
      failures, until := [], None;
    }

    method Prune(now: int)
      modifies this`failures
      ensures failures == Recent(old(failures), now)
    {
      var i := 0;
      while i < |failures| && failures[i] < now - WINDOW
        invariant 0 <= i <= |failures| && Recent(failures, now) == Recent(failures[i..], now)
      {
        assert failures[i..][1..] == failures[i + 1..];
        i := i + 1;
      }
      failures := failures[i..];
    }

    method Allow(now: int) returns (ok: bool)
      modifies this
      ensures Abs() == Checked(old(Abs()), now) && ok == Allowed(old(Abs()), now)
    {
      Prune(now);
      if |failures| == 0 {
        until := None;
        return true;
      }
      ok := until == None || now >= until.value;
    }

    method Note(now: int)
      modifies this
      ensures Abs() == Charged(old(Abs()), now)
    {
      Prune(now);
      failures := failures + [now];
      var wait := Cooldown(|failures|);
      if wait > 0 { until := Some(now + wait); }
    }

    method TakeBack()
      modifies this
      ensures Abs() == Refund(old(Abs()))
    {
      if |failures| > 0 { failures := failures[..|failures| - 1]; }
      if Cooldown(|failures|) == 0 { until := None; }
    }
  }
}
