/**
  Media bandwidth: every transfer is paid for twice, from its session's bucket and from one
  they all share, or not at all. Tokens and seconds are real numbers; the waits that come
  out are whole nanoseconds, as in the source.
 */
module Bandwidth {
  import opened Basics

  type Owner = nat
  datatype Kind = Disk | Net

  datatype Bucket = Bucket(tokens: real, last: Option<real>, rate: real, burst: real)
  datatype Quota = Quota(disk: Bucket, net: Bucket)
  datatype State = State(disk: Bucket, net: Bucket, session: map<Owner, Quota>)

  // bytes per second and the most that can be saved up
  datatype Terms = Terms(rate: real, burst: real)

  const SESSION_DISK := Terms(8388608.0, 262144.0)
  const SESSION_NET := Terms(2097152.0, 262144.0)
  const GLOBAL_DISK := Terms(33554432.0, 1048576.0)
  const GLOBAL_NET := Terms(8388608.0, 1048576.0)

  // What flows in over a time.
  function Flow(time: real, rate: real): real { time * rate }

  function Min(a: real, b: real): real { if a <= b then a else b }

  function Fresh(t: Terms): Bucket { Bucket(0.0, None, t.rate, t.burst) }

  const FRESH_QUOTA := Quota(Fresh(SESSION_DISK), Fresh(SESSION_NET))

  // ---------------------------------------------------------------- one bucket

  function Refill(b: Bucket, now: real): Bucket {
    if b.last == None then b.(tokens := b.burst, last := Some(now))
    else
      var more := if b.rate > 0.0 then b.tokens + Flow(now - b.last.value, b.rate) else b.tokens;
      b.(tokens := if more > b.burst then b.burst else more, last := Some(now))
  }

  // Nanoseconds until the bucket can pay, 0 if it can now, -1 if it never will.
  function WaitFor(b: Bucket, need: real): int {
    if need > b.burst then -1
    else if b.tokens >= need then 0
    else if b.rate <= 0.0 then -1
    else
      var wait := ((need - b.tokens) / b.rate * 1000000000.0).Floor;
      if wait < 1000000 then 1000000 else wait
  }

  ghost predicate BucketOk(b: Bucket, clock: real) {
    && b.rate > 0.0 && b.burst > 0.0
    && (b.last.Some? ==> 0.0 <= b.tokens <= b.burst && b.last.value <= clock)
  }

  // What the bucket holds at a time.
  ghost function Level(b: Bucket, t: real): real {
    if b.last == None then b.burst else Min(b.burst, b.tokens + Flow(t - b.last.value, b.rate))
  }

  lemma FlowGrows(time: real, rate: real)
    requires rate >= 0.0 && time >= 0.0
    ensures Flow(time, rate) >= 0.0
  {
  }

  lemma FlowAdds(a: real, b: real, rate: real)
    ensures Flow(a + b, rate) == Flow(a, rate) + Flow(b, rate) && Flow(0.0, rate) == 0.0
  {
  }

  lemma LevelBounds(b: Bucket, clock: real, t: real)
    requires BucketOk(b, clock) && clock <= t
    ensures 0.0 <= Level(b, t) <= b.burst
  {
    hide Flow;
    if b.last.Some? { FlowGrows(t - b.last.value, b.rate); }
  }

  // Refilling changes what is stored, not what the bucket is worth at any later time.
  lemma RefillIsNeutral(b: Bucket, clock: real, now: real, t: real)
    requires BucketOk(b, clock) && clock <= now <= t
    ensures Level(Refill(b, now), t) == Level(b, t)
    ensures BucketOk(Refill(b, now), now) && Refill(b, now).last == Some(now) && Refill(b, now).tokens == Level(b, now)
  {
    hide Flow;
    FlowGrows(t - now, b.rate);
    if b.last.Some? {
      FlowGrows(now - b.last.value, b.rate);
      FlowAdds(t - now, now - b.last.value, b.rate);
      assert t - b.last.value == (t - now) + (now - b.last.value);
    }
  }

  // Time adds at most what flows in.
  lemma LevelGrows(b: Bucket, clock: real, t: real, u: real)
    requires BucketOk(b, clock) && clock <= t <= u
    ensures Level(b, t) <= Level(b, u) <= Level(b, t) + Flow(u - t, b.rate)
  {
    hide Flow;
    FlowGrows(u - t, b.rate);
    if b.last.Some? {
      FlowAdds(u - t, t - b.last.value, b.rate);
      assert u - b.last.value == (u - t) + (t - b.last.value);
    }
  }

  // Paying lowers the level by the price.
  lemma PayIs(b: Bucket, now: real, n: real)
    requires BucketOk(b, now) && b.last == Some(now) && 0.0 <= n <= b.tokens
    ensures BucketOk(b.(tokens := b.tokens - n), now) && Level(b.(tokens := b.tokens - n), now) == b.tokens - n
  {
    hide Flow;
    FlowAdds(0.0, 0.0, b.rate);
    assert now - now == 0.0;
  }

  // A bucket left alone for the wait it names, and a millisecond more for the nanoseconds
  // rounded off, can pay.
  lemma WaitSuffices(b: Bucket, now: real, need: real, wait: int, t: real)
    requires BucketOk(b, now) && b.last == Some(now) && WaitFor(b, need) >= 0 && wait >= WaitFor(b, need)
    requires t >= now + wait as real / 1000000000.0 + 0.001
    ensures Level(b, t) >= need
  {
    if b.tokens >= need {
      FlowGrows(t - now, b.rate);
    } else {
      var x := (need - b.tokens) / b.rate;
      assert Flow(x, b.rate) == need - b.tokens;
      assert wait as real >= x * 1000000000.0 - 1.0;
      assert t - now >= x;
      hide Flow, WaitFor;
      FlowGrows(t - now - x, b.rate);
      FlowAdds(x, t - now - x, b.rate);
      assert t - now == x + (t - now - x);
    }
  }

  // ---------------------------------------------------------------- both buckets

  function Pick(q: Quota, kind: Kind): Bucket { if kind == Disk then q.disk else q.net }

  function Place(q: Quota, kind: Kind, b: Bucket): Quota { if kind == Disk then q.(disk := b) else q.(net := b) }

  function Global(s: State, kind: Kind): Bucket { if kind == Disk then s.disk else s.net }

  function SetBuckets(s: State, owner: Owner, kind: Kind, global: Bucket, own: Bucket): State
    requires owner in s.session
  {
    var t := if kind == Disk then s.(disk := global) else s.(net := global);
    t.(session := s.session[owner := Place(s.session[owner], kind, own)])
  }

  datatype Verdict = Closed | Never | Later(wait: int) | Paid

  function Judge(global: Bucket, own: Bucket, need: real): Verdict {
    var gw, sw := WaitFor(global, need), WaitFor(own, need);
    if gw < 0 || sw < 0 then Never
    else
      var wait := if sw > gw then sw else gw;
      if wait > 0 then Later(wait) else Paid
  }

  function TryVerdict(s: State, owner: Owner, kind: Kind, n: nat, now: real): Verdict {
    if owner !in s.session then Closed
    else Judge(Refill(Global(s, kind), now), Refill(Pick(s.session[owner], kind), now), n as real)
  }

  ghost function Try(s: State, owner: Owner, kind: Kind, n: nat, now: real): State {
    match TryVerdict(s, owner, kind, n, now)
    case Closed => s
    case Paid =>
      var g, w := Refill(Global(s, kind), now), Refill(Pick(s.session[owner], kind), now);
      SetBuckets(s, owner, kind, g.(tokens := g.tokens - n as real), w.(tokens := w.tokens - n as real))
    case _ => SetBuckets(s, owner, kind, Refill(Global(s, kind), now), Refill(Pick(s.session[owner], kind), now))
  }

  ghost function Bind(s: State, owner: Owner): State {
    if owner in s.session then s else s.(session := s.session[owner := FRESH_QUOTA])
  }

  ghost function Drop(s: State, owner: Owner): State { s.(session := s.session - {owner}) }

  // A session that is not bound would start full.
  function OwnBucket(s: State, owner: Owner, kind: Kind): Bucket {
    if owner in s.session then Pick(s.session[owner], kind) else Pick(FRESH_QUOTA, kind)
  }

  function SessionTerms(kind: Kind): Terms { if kind == Disk then SESSION_DISK else SESSION_NET }
  function GlobalTerms(kind: Kind): Terms { if kind == Disk then GLOBAL_DISK else GLOBAL_NET }

  ghost predicate OnTerms(b: Bucket, t: Terms) { b.rate == t.rate && b.burst == t.burst }

  ghost predicate Inv(s: State, clock: real) {
    && (forall kind :: BucketOk(Global(s, kind), clock) && OnTerms(Global(s, kind), GlobalTerms(kind)))
    && (forall owner, kind ::
          BucketOk(OwnBucket(s, owner, kind), clock) && OnTerms(OwnBucket(s, owner, kind), SessionTerms(kind)))
  }

  ghost function GlobalLevel(s: State, kind: Kind, t: real): real { Level(Global(s, kind), t) }
  ghost function OwnLevel(s: State, owner: Owner, kind: Kind, t: real): real { Level(OwnBucket(s, owner, kind), t) }

  // The two buckets an attempt leaves behind.
  ghost function After(b: Bucket, paid: bool, n: nat, now: real): Bucket {
    var r := Refill(b, now);
    if paid then r.(tokens := r.tokens - n as real) else r
  }

  lemma AfterIs(b: Bucket, clock: real, paid: bool, n: nat, now: real)
    requires BucketOk(b, clock) && clock <= now
    requires paid ==> WaitFor(Refill(b, now), n as real) == 0
    ensures BucketOk(After(b, paid, n, now), now)
    ensures After(b, paid, n, now).rate == b.rate && After(b, paid, n, now).burst == b.burst
    ensures Level(After(b, paid, n, now), now) == Level(b, now) - if paid then n as real else 0.0
  {
    RefillIsNeutral(b, clock, now, now);
    if paid { PayIs(Refill(b, now), now, n as real); }
  }

  lemma TryIs(s: State, owner: Owner, kind: Kind, n: nat, now: real)
    ensures var v := TryVerdict(s, owner, kind, n, now);
      v == Closed || Try(s, owner, kind, n, now)
        == SetBuckets(s, owner, kind, After(Global(s, kind), v == Paid, n, now),
                      After(OwnBucket(s, owner, kind), v == Paid, n, now))
    ensures TryVerdict(s, owner, kind, n, now) == Paid ==>
              WaitFor(Refill(Global(s, kind), now), n as real) == 0
                && WaitFor(Refill(OwnBucket(s, owner, kind), now), n as real) == 0
  {
  }

  // What an attempt takes from a bucket: the shared one for None, else the owner's.
  ghost function Taken(s: State, owner: Owner, kind: Kind, n: nat, now: real, who: Option<Owner>, k: Kind): real {
    if TryVerdict(s, owner, kind, n, now) == Paid && k == kind && (who == None || who == Some(owner))
    then n as real else 0.0
  }

  lemma SetBucketsIs(s: State, owner: Owner, kind: Kind, global: Bucket, own: Bucket)
    requires owner in s.session
    ensures var t := SetBuckets(s, owner, kind, global, own);
      && (forall k :: Global(t, k) == if k == kind then global else Global(s, k))
      && (forall o, k :: OwnBucket(t, o, k) == if o == owner && k == kind then own else OwnBucket(s, o, k))
  {
  }

  lemma TryKeeps(s: State, clock: real, owner: Owner, kind: Kind, n: nat, now: real)
    requires Inv(s, clock) && clock <= now
    ensures Inv(Try(s, owner, kind, n, now), now)
    ensures forall k :: GlobalLevel(Try(s, owner, kind, n, now), k, now)
                     == GlobalLevel(s, k, now) - Taken(s, owner, kind, n, now, None, k)
    ensures forall o, k :: OwnLevel(Try(s, owner, kind, n, now), o, k, now)
                        == OwnLevel(s, o, k, now) - Taken(s, owner, kind, n, now, Some(o), k)
  {
    hide Level, Try, TryVerdict, After, SetBuckets;
    TryIs(s, owner, kind, n, now);
    var paid := TryVerdict(s, owner, kind, n, now) == Paid;
    AfterIs(Global(s, kind), clock, paid, n, now);
    AfterIs(OwnBucket(s, owner, kind), clock, paid, n, now);
    if TryVerdict(s, owner, kind, n, now) == Closed {
      ClosedIsQuiet(s, owner, kind, n, now);
    } else {
      assert owner in s.session by { OpenIsBound(s, owner, kind, n, now); }
      SetBucketsIs(s, owner, kind, After(Global(s, kind), paid, n, now),
        After(OwnBucket(s, owner, kind), paid, n, now));
    }
    var t := Try(s, owner, kind, n, now);
    forall k ensures BucketOk(Global(t, k), now) && OnTerms(Global(t, k), GlobalTerms(k)) {
      assert BucketOk(Global(s, k), clock) && OnTerms(Global(s, k), GlobalTerms(k));
    }
    forall o, k ensures BucketOk(OwnBucket(t, o, k), now) && OnTerms(OwnBucket(t, o, k), SessionTerms(k)) {
      assert BucketOk(OwnBucket(s, o, k), clock) && OnTerms(OwnBucket(s, o, k), SessionTerms(k));
    }
  }

  lemma ClosedIsQuiet(s: State, owner: Owner, kind: Kind, n: nat, now: real)
    requires TryVerdict(s, owner, kind, n, now) == Closed
    ensures Try(s, owner, kind, n, now) == s
  {
  }

  lemma OpenIsBound(s: State, owner: Owner, kind: Kind, n: nat, now: real)
    requires TryVerdict(s, owner, kind, n, now) != Closed
    ensures owner in s.session
  {
  }

  // An attempt that is refused or put off takes from no bucket: at every later time each
  // one is worth what it was worth without the attempt.
  lemma RefusedTakesNothing(s: State, clock: real, owner: Owner, kind: Kind, n: nat, now: real, o: Owner, k: Kind,
                            t: real)
    requires Inv(s, clock) && clock <= now <= t && TryVerdict(s, owner, kind, n, now) != Paid
    ensures GlobalLevel(Try(s, owner, kind, n, now), k, t) == GlobalLevel(s, k, t)
    ensures OwnLevel(Try(s, owner, kind, n, now), o, k, t) == OwnLevel(s, o, k, t)
  {
    assert BucketOk(Global(s, kind), clock) && BucketOk(OwnBucket(s, owner, kind), clock);
    hide Level;
    RefillIsNeutral(Global(s, kind), clock, now, t);
    RefillIsNeutral(OwnBucket(s, owner, kind), clock, now, t);
  }

  // An attempt put off and made again after its wait, with nothing in between, is paid.
  lemma LaterIsPaid(s: State, clock: real, owner: Owner, kind: Kind, n: nat, now: real, t: real)
    requires Inv(s, clock) && clock <= now && TryVerdict(s, owner, kind, n, now).Later?
    requires t >= now + TryVerdict(s, owner, kind, n, now).wait as real / 1000000000.0 + 0.001
    ensures TryVerdict(Try(s, owner, kind, n, now), owner, kind, n, t) == Paid
  {
    var g, w := Refill(Global(s, kind), now), Refill(OwnBucket(s, owner, kind), now);
    assert BucketOk(Global(s, kind), clock) && BucketOk(OwnBucket(s, owner, kind), clock);
    RefillIsNeutral(Global(s, kind), clock, now, now);
    RefillIsNeutral(OwnBucket(s, owner, kind), clock, now, now);
    var wait := TryVerdict(s, owner, kind, n, now).wait;
    assert wait >= WaitFor(g, n as real) >= 0 && wait >= WaitFor(w, n as real) >= 0;
    assert t >= now;
    WaitSuffices(g, now, n as real, wait, t);
    WaitSuffices(w, now, n as real, wait, t);
    RefillIsNeutral(g, now, t, t);
    RefillIsNeutral(w, now, t, t);
    assert Global(Try(s, owner, kind, n, now), kind) == g && OwnBucket(Try(s, owner, kind, n, now), owner, kind) == w;
    hide Level, Refill, Flow;
  }

  // ---------------------------------------------------------------- runs

  datatype Event = EvTry(owner: Owner, kind: Kind, n: nat, now: real) | EvBind(owner: Owner) | EvDrop(owner: Owner)

  ghost function Step(s: State, e: Event): State {
    match e
    case EvTry(owner, kind, n, now) => Try(s, owner, kind, n, now)
    case EvBind(owner) => Bind(s, owner)
    case EvDrop(owner) => Drop(s, owner)
  }

  ghost function Run(s: State, events: seq<Event>): State {
    if events == [] then s else Step(Run(s, events[..|events| - 1]), events[|events| - 1])
  }

  ghost function Clock(events: seq<Event>, start: real): real {
    if events == [] then start
    else
      var last := events[|events| - 1];
      if last.EvTry? then last.now else Clock(events[..|events| - 1], start)
  }

  ghost predicate Monotone(events: seq<Event>, start: real) {
    events == [] ||
    var before, last := events[..|events| - 1], events[|events| - 1];
    Monotone(before, start) && (last.EvTry? ==> last.now >= Clock(before, start))
  }

  // Bytes of one kind admitted over a run: to everyone for None, else to one owner.
  ghost function Admitted(s: State, events: seq<Event>, who: Option<Owner>, kind: Kind): real {
    if events == [] then 0.0
    else
      var before, last := events[..|events| - 1], events[|events| - 1];
      Admitted(s, before, who, kind)
      + if last.EvTry? then Taken(Run(s, before), last.owner, last.kind, last.n, last.now, who, kind) else 0.0
  }

  lemma TryMore(s: State, events: seq<Event>, owner: Owner, kind: Kind, n: nat, now: real)
    ensures var more := events + [EvTry(owner, kind, n, now)];
      && Run(s, more) == Try(Run(s, events), owner, kind, n, now)
      && Admitted(s, more, Some(owner), kind) == Admitted(s, events, Some(owner), kind)
           + if TryVerdict(Run(s, events), owner, kind, n, now) == Paid then n as real else 0.0
  {
    hide Try, TryVerdict;
    var more := events + [EvTry(owner, kind, n, now)];
    assert more[..|more| - 1] == events;
  }

  ghost function Drops(events: seq<Event>, owner: Owner): nat {
    if events == [] then 0
    else Drops(events[..|events| - 1], owner) + if events[|events| - 1] == EvDrop(owner) then 1 else 0
  }

  lemma StepKeeps(s: State, clock: real, e: Event)
    requires Inv(s, clock) && (e.EvTry? ==> e.now >= clock)
    ensures Inv(Step(s, e), if e.EvTry? then e.now else clock)
  {
    match e
    case EvTry(owner, kind, n, now) => TryKeeps(s, clock, owner, kind, n, now);
    case EvBind(owner) => BindIs(s, owner);
    case EvDrop(owner) => DropIs(s, owner);
  }

  // Binding is worth nothing by itself; dropping is worth a full bucket to the next binding.
  lemma BindIs(s: State, owner: Owner)
    ensures forall k :: Global(Bind(s, owner), k) == Global(s, k)
    ensures forall o, k :: OwnBucket(Bind(s, owner), o, k) == OwnBucket(s, o, k)
  {
  }

  lemma DropIs(s: State, owner: Owner)
    ensures forall k :: Global(Drop(s, owner), k) == Global(s, k)
    ensures forall o, k ::
        OwnBucket(Drop(s, owner), o, k) == if o == owner then Pick(FRESH_QUOTA, k) else OwnBucket(s, o, k)
  {
  }

  lemma {:induction false} RunKeeps(s: State, events: seq<Event>, start: real)
    requires Inv(s, start) && Monotone(events, start)
    ensures Inv(Run(s, events), Clock(events, start)) && start <= Clock(events, start)
    decreases |events|
  {
    hide Inv, Step;
    if events != [] {
      RunKeeps(s, events[..|events| - 1], start);
      StepKeeps(Run(s, events[..|events| - 1]), Clock(events[..|events| - 1], start), events[|events| - 1]);
    }
  }

  // What was admitted, and what is left, came from what was there and what flowed in.
  lemma {:induction false} GlobalBalance(s: State, events: seq<Event>, start: real, kind: Kind)
    requires Inv(s, start) && Monotone(events, start)
    ensures var end := Clock(events, start);
      Admitted(s, events, None, kind) + GlobalLevel(Run(s, events), kind, end)
      <= GlobalLevel(s, kind, start) + Flow(end - start, GlobalTerms(kind).rate)
    decreases |events|
  {
    if events != [] {
      var before, last := events[..|events| - 1], events[|events| - 1];
      var m, mid, end := Run(s, before), Clock(before, start), Clock(events, start);
      GlobalBalance(s, before, start, kind);
      RunKeeps(s, before, start);
      assert BucketOk(Global(m, kind), mid) && OnTerms(Global(m, kind), GlobalTerms(kind));
      LevelGrows(Global(m, kind), mid, mid, end);
      FlowAdds(end - mid, mid - start, GlobalTerms(kind).rate);
      assert end - start == (end - mid) + (mid - start);
      hide Inv, Level, Try, TryVerdict, GlobalTerms, Flow;
      match last
      case EvTry(owner, k, n, now) => TryKeeps(m, mid, owner, k, n, now);
      case EvBind(owner) => BindIs(m, owner);
      case EvDrop(owner) => DropIs(m, owner);
    }
  }

  lemma OwnStep(m: State, mid: real, e: Event, end: real, owner: Owner, kind: Kind)
    requires Inv(m, mid) && end == (if e.EvTry? then e.now else mid) >= mid
    ensures (if e.EvTry? then Taken(m, e.owner, e.kind, e.n, e.now, Some(owner), kind) else 0.0)
            + OwnLevel(Step(m, e), owner, kind, end)
         <= OwnLevel(m, owner, kind, mid) + Flow(end - mid, SessionTerms(kind).rate)
            + if e == EvDrop(owner) then SessionTerms(kind).burst else 0.0
  {
    var b := OwnBucket(m, owner, kind);
    assert BucketOk(b, mid) && OnTerms(b, SessionTerms(kind));
    LevelGrows(b, mid, mid, end);
    LevelBounds(b, mid, mid);
    assert Level(Pick(FRESH_QUOTA, kind), end) == SessionTerms(kind).burst;
    hide Inv, Level, Try, TryVerdict, SessionTerms, Flow;
    match e
    case EvTry(o, k, n, now) => TryKeeps(m, mid, o, k, n, now);
    case EvBind(o) => BindIs(m, o);
    case EvDrop(o) => DropIs(m, o);
  }

  function Times(n: nat, x: real): real { n as real * x }

  lemma OneMore(n: nat, x: real)
    ensures Times(n + 1, x) == Times(n, x) + x && Times(0, x) == 0.0
  {
  }

  lemma {:induction false} OwnBalance(s: State, events: seq<Event>, start: real, owner: Owner, kind: Kind)
    requires Inv(s, start) && Monotone(events, start)
    ensures var end := Clock(events, start);
      Admitted(s, events, Some(owner), kind) + OwnLevel(Run(s, events), owner, kind, end)
      <= OwnLevel(s, owner, kind, start) + Flow(end - start, SessionTerms(kind).rate)
         + Times(Drops(events, owner), SessionTerms(kind).burst)
    decreases |events|
  {
    hide Inv, OwnLevel, Step, Taken, SessionTerms, Flow, Times;
    if events != [] {
      var before, last := events[..|events| - 1], events[|events| - 1];
      var m, mid, end := Run(s, before), Clock(before, start), Clock(events, start);
      OwnBalance(s, before, start, owner, kind);
      RunKeeps(s, before, start);
      OwnStep(m, mid, last, end, owner, kind);
      FlowAdds(end - mid, mid - start, SessionTerms(kind).rate);
      assert end - start == (end - mid) + (mid - start);
      OneMore(Drops(before, owner), SessionTerms(kind).burst);
    } else {
      FlowAdds(0.0, 0.0, SessionTerms(kind).rate);
      OneMore(0, SessionTerms(kind).burst);
    }
  }

  // In any stretch of time all owners together are admitted at most a burst and the rate.
  lemma GlobalBound(s: State, events: seq<Event>, start: real, kind: Kind)
    requires Inv(s, start) && Monotone(events, start)
    ensures Admitted(s, events, None, kind)
         <= GlobalTerms(kind).burst + Flow(Clock(events, start) - start, GlobalTerms(kind).rate)
  {
    GlobalBalance(s, events, start, kind);
    RunKeeps(s, events, start);
    var end := Clock(events, start);
    assert BucketOk(Global(Run(s, events), kind), end);
    assert BucketOk(Global(s, kind), start) && OnTerms(Global(s, kind), GlobalTerms(kind));
    LevelBounds(Global(Run(s, events), kind), end, end);
    LevelBounds(Global(s, kind), start, start);
  }

  // And so is one owner, with one more burst for each time its session was torn down.
  lemma OwnBound(s: State, events: seq<Event>, start: real, owner: Owner, kind: Kind)
    requires Inv(s, start) && Monotone(events, start)
    ensures Admitted(s, events, Some(owner), kind)
         <= Times(1 + Drops(events, owner), SessionTerms(kind).burst)
            + Flow(Clock(events, start) - start, SessionTerms(kind).rate)
  {
    OwnBalance(s, events, start, owner, kind);
    RunKeeps(s, events, start);
    var end := Clock(events, start);
    assert BucketOk(OwnBucket(Run(s, events), owner, kind), end);
    assert BucketOk(OwnBucket(s, owner, kind), start) && OnTerms(OwnBucket(s, owner, kind), SessionTerms(kind));
    LevelBounds(OwnBucket(Run(s, events), owner, kind), end, end);
    LevelBounds(OwnBucket(s, owner, kind), start, start);
    OneMore(Drops(events, owner), SessionTerms(kind).burst);
  }

  // ---------------------------------------------------------------- as the daemon runs it

  class MediaBandwidth {
    var diskGlobal: Bucket
    var netGlobal: Bucket
    var session: map<Owner, Quota>

    ghost function Abs(): State
      reads this
    {
      State(diskGlobal, netGlobal, session)
    }

    constructor ()
      ensures forall clock: real :: Inv(Abs(), clock)
    {
      diskGlobal, netGlobal, session := Fresh(GLOBAL_DISK), Fresh(GLOBAL_NET), map[];
    }

    method BindOwner(owner: Owner)
      modifies this`session
      ensures Abs() == Bind(old(Abs()), owner)
    {
      if owner !in session { session := session[owner := FRESH_QUOTA]; }
    }

    method DropOwner(owner: Owner)
      modifies this`session
      ensures Abs() == Drop(old(Abs()), owner)
    {
      session := session - {owner};
    }

    method TryAdmit(owner: Owner, kind: Kind, n: nat, now: real) returns (v: Verdict)
      modifies this
      ensures Abs() == Try(old(Abs()), owner, kind, n, now) && v == TryVerdict(old(Abs()), owner, kind, n, now)
    {
      if owner !in session { return Closed; }
      var global := if kind == Net then netGlobal else diskGlobal;
      var win := if kind == Net then session[owner].net else session[owner].disk;
      global := Refill(global, now);
      win := Refill(win, now);
      var need := n as real;
      var gw, sw := WaitFor(global, need), WaitFor(win, need);
      if gw < 0 || sw < 0 {
        v := Never;
      } else {
        var wait := gw;
        if sw > wait { wait := sw; }
        if wait > 0 {
          v := Later(wait);
        } else {
          global := global.(tokens := global.tokens - need);
          win := win.(tokens := win.tokens - need);
          v := Paid;
        }
      }
      if kind == Net { netGlobal := global; } else { diskGlobal := global; }
      session := session[owner := Place(session[owner], kind, win)];
    }

    // The waiting loop, given the times at which it is woken before its context ends. It
    // pays exactly once if it succeeds and never otherwise.
    method Admit(owner: Owner, kind: Kind, n: nat, wakes: seq<real>) returns (ok: bool, ghost tries: seq<Event>)
      modifies this
      ensures Abs() == Run(old(Abs()), tries) && |tries| <= |wakes|
      ensures forall i :: 0 <= i < |tries| ==> tries[i] == EvTry(owner, kind, n, wakes[i])
      ensures Admitted(old(Abs()), tries, Some(owner), kind) == if ok && n > 0 then n as real else 0.0
    {
      tries := [];
      if n <= 0 { return true, []; }
      ghost var s := Abs();
      var i := 0;
      ok := false;
      while i < |wakes| && !ok
        invariant 0 <= i <= |wakes| && |tries| == i
        invariant forall j :: 0 <= j < i ==> tries[j] == EvTry(owner, kind, n, wakes[j])
        invariant Abs() == Run(s, tries)
        invariant Admitted(s, tries, Some(owner), kind) == if ok then n as real else 0.0
      {
        hide Try, TryVerdict, Run, Admitted;
        TryMore(s, tries, owner, kind, n, wakes[i]);
        var v := TryAdmit(owner, kind, n, wakes[i]);
        tries := tries + [EvTry(owner, kind, n, wakes[i])];
        i := i + 1;
        if v == Closed || v == Never { return; }
        if v == Paid { ok := true; }
      }
    }
  }
}
