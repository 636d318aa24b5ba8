/**
  What becomes of session keys, from their derivation on: a key some session has held is zeroed
  once none holds it, over every run, and exactly the keys of a refused third hello are left
  behind as they are.
 */
module SessionKeys {
  import opened Basics
  import opened SessionTable
  import opened SessionSteps
  import opened SessionRuns

  ghost predicate Holds(t: Table, s: Sess, k: Direction) {
    s in t.objs && (t.objs[s].c2s == k || t.objs[s].s2c == k)
  }

  ghost predicate Blanked(key: Bytes) { forall i :: 0 <= i < |key| ==> key[i] == 0 }

  // A key is held by a session or all zeros.
  ghost predicate Settled(t: Table, k: Direction)
    requires k in t.keys
  {
    Blanked(t.keys[k]) || exists s :: s in t.objs && Holds(t, s, k)
  }

  ghost predicate Spotless(t: Table) {
    forall k :: k in t.keys ==> Settled(t, k)
  }

  // A session gets its keys with the third message.
  ghost predicate Keyless(t: Table) {
    forall s :: s in t.objs && t.objs[s].state in {ResumeHello, Hello2} ==>
      t.objs[s].c2s == null && t.objs[s].s2c == null
  }

  ghost predicate Clean(t: Table) { Core(t) && Keyless(t) && Spotless(t) }

  // No known key changes sides: what is settled stays settled, and what is not stays behind.
  ghost predicate Steady(t: Table, u: Table) {
    forall k :: k in t.keys ==> k in u.keys && (Settled(u, k) <==> Settled(t, k))
  }

  ghost predicate Kind(t: Table, u: Table) {
    Keyless(u) && Steady(t, u)
  }

  lemma KindChains(t: Table, m: Table, u: Table)
    requires Kind(t, m) && Kind(m, u)
    ensures Kind(t, u)
  {
    hide Settled;
  }

  lemma KindStutters(t: Table)
    requires Keyless(t)
    ensures Kind(t, t)
  {
  }

  lemma KindIsKeyless(t: Table, u: Table)
    requires Kind(t, u)
    ensures Keyless(u)
  {
  }

  // ---------------------------------------------------------------- the parts of a step

  lemma RetireKind(t: Table, rid: Route, dropTerminal: bool, hangUp: bool)
    requires Keyless(t) && Has(t, rid)
    ensures Kind(t, Retire(t, rid, dropTerminal, hangUp))
    ensures Retire(t, rid, dropTerminal, hangUp).keys.Keys == t.keys.Keys
  {
    var u, s := Retire(t, rid, dropTerminal, hangUp), t.sessions[rid];
    forall k | k in t.keys ensures Settled(u, k) <==> Settled(t, k) {
      assert Holds(t, s, k) ==> Blanked(u.keys[k]);
      assert !Holds(t, s, k) ==> u.keys[k] == t.keys[k];
      forall x | x in t.objs && x != s ensures Holds(u, x, k) <==> Holds(t, x, k) {
      }
    }
  }

  // Nothing but the fields of one object changes, and its keys stay its keys.
  lemma FieldsKind(t: Table, u: Table, s: Sess, v: Fields)
    requires Keyless(t) && u.keys == t.keys && u.objs == t.objs[s := v]
    requires if s in t.objs then v.c2s == t.objs[s].c2s && v.s2c == t.objs[s].s2c else v.c2s == null && v.s2c == null
    requires v.state in {ResumeHello, Hello2} ==> v.c2s == null && v.s2c == null
    ensures Kind(t, u)
  {
    forall k | k in t.keys ensures Settled(u, k) <==> Settled(t, k) {
      forall x | x in u.objs ensures Holds(u, x, k) <==> Holds(t, x, k) {
      }
      forall x | x in t.objs ensures x in u.objs {
      }
    }
  }

  lemma SameKind(t: Table, u: Table)
    requires Keyless(t) && u.keys == t.keys && u.objs == t.objs
    ensures Kind(t, u)
  {
    forall k | k in t.keys ensures Settled(u, k) <==> Settled(t, k) {
      forall x | x in t.objs ensures Holds(u, x, k) <==> Holds(t, x, k) {
      }
    }
  }

  lemma CloseKind(t: Table, rid: Route)
    requires Keyless(t)
    ensures Kind(t, Close(t, rid)) && Close(t, rid).keys.Keys == t.keys.Keys
  {
    hide Keyless, Steady, Retire;
    KindStutters(t);
    if Has(t, rid) {
      SameKind(t, Unindex(t, rid));
      RetireKind(Unindex(t, rid), rid, true, t.objs[t.sessions[rid]].transport == P2P);
      KindChains(t, Unindex(t, rid), Close(t, rid));
    }
  }

  lemma NotHeld(t: Table, p: Pair)
    requires Core(t) && FreshPair(t, p)
    ensures forall s :: s in t.objs ==> !Holds(t, s, p.c2s) && !Holds(t, s, p.s2c)
  {
    forall s | s in t.objs ensures !Holds(t, s, p.c2s) && !Holds(t, s, p.s2c) {
      assert HoldsKeys(t, t.objs[s]);
    }
  }

  // The keys of a verified exchange, before any session takes them up.
  lemma DerivedKind(t: Table, h: Hello, p: Pair)
    requires Keyless(t) && h.Hello3? && FreshPair(t, p)
    ensures Kind(t, Derived(t, h, p))
  {
    var u := Derived(t, h, p);
    forall k | k in t.keys ensures Settled(u, k) <==> Settled(t, k) {
      forall x | x in t.objs ensures Holds(u, x, k) <==> Holds(t, x, k) {
      }
    }
  }

  // They go to a session that had none.
  lemma WithKeysKind(t: Table, rid: Route, h: Hello, p: Pair, phase: Phase)
    requires Keyless(t) && Has(t, rid) && h.Hello3? && At(t, rid).state == Hello2 && FreshPair(t, p)
    requires phase !in {ResumeHello, Hello2}
    ensures var u := WithKeys(t, rid, h, p, phase);
      Kind(t, u) && u.keys.Keys == t.keys.Keys + {p.c2s, p.s2c} && Settled(u, p.c2s) && Settled(u, p.s2c)
  {
    var u, s := WithKeys(t, rid, h, p, phase), t.sessions[rid];
    assert Holds(u, s, p.c2s) && Holds(u, s, p.s2c);
    forall k | k in t.keys ensures Settled(u, k) <==> Settled(t, k) {
      forall x | x in t.objs ensures Holds(u, x, k) <==> Holds(t, x, k) {
      }
    }
  }

  // The keys a step brings in are held or all zeros.
  ghost predicate NewSettled(t: Table, u: Table) {
    forall k :: k in u.keys && k !in t.keys ==> Settled(u, k)
  }

  lemma SpotlessExactly(t: Table, u: Table)
    requires Kind(t, u) && Spotless(t)
    ensures Spotless(u) <==> NewSettled(t, u)
  {
    hide Settled;
  }

  // Nobody holds a key that was just derived.
  lemma DerivedExactly(t: Table, m: Table, h: Hello, p: Pair)
    requires Core(t) && h.Hello3? && FreshPair(t, p) && m.keys == Derived(t, h, p).keys && m.objs == t.objs
    ensures (Settled(m, p.c2s) <==> Blanked(h.c2s)) && (Settled(m, p.s2c) <==> Blanked(h.s2c))
  {
    hide Core, Blanked;
    NotHeld(t, p);
    assert m.keys[p.c2s] == h.c2s && m.keys[p.s2c] == h.s2c;
    forall s | s in m.objs ensures !Holds(m, s, p.c2s) && !Holds(m, s, p.s2c) {
      assert !Holds(t, s, p.c2s) && !Holds(t, s, p.s2c);
    }
  }

  // A session closed before it takes the keys up leaves them as they are.
  lemma LeftBehind(t: Table, m: Table, rid: Route, h: Hello, p: Pair)
    requires Core(t) && Keyless(t) && Has(t, rid) && h.Hello3? && FreshPair(t, p)
    requires m.keys == Derived(t, h, p).keys && m.objs == t.objs
    ensures var u := Close(m, rid);
      Kind(t, u) && (NewSettled(t, u) <==> Blanked(h.c2s) && Blanked(h.s2c))
  {
    hide Core, Close, Keyless, Blanked, Settled;
    DerivedKind(t, h, p);
    SameKind(Derived(t, h, p), m);
    KindChains(t, Derived(t, h, p), m);
    KindIsKeyless(t, m);
    CloseKind(m, rid);
    KindChains(t, m, Close(m, rid));
    DerivedExactly(t, m, h, p);
    assert forall k :: k in m.keys && k !in t.keys <==> k == p.c2s || k == p.s2c;
  }

  // ---------------------------------------------------------------- the steps

  // A verified third hello that is turned away: its parent is gone, there are too many
  // devices, or the device could not be saved.
  ghost predicate Refused(t: Table, rid: Route, h: Hello)
    requires Has(t, rid) && h.Hello3?
  {
    var v := At(t, rid);
    Verified(t, rid, h) && if v.upgradeFrom != 0 then !ParentReady(t, v) else CapReached(t, v.deviceID) || !h.saved
  }

  lemma UnsavedIs(t: Table, rid: Route, h: Hello, p: Pair)
    requires Keyless(t) && Has(t, rid) && h.Hello3? && At(t, rid).state == Hello2
    ensures Unsaved(t, rid, h, p).objs == t.objs && Unsaved(t, rid, h, p).keys == Derived(t, h, p).keys
  {
  }

  lemma KickedKind(t: Table, rid: Route, h: Hello, p: Pair)
    requires Keyless(t) && Has(t, rid) && h.Hello3? && At(t, rid).state == Hello2 && FreshPair(t, p)
    ensures Kind(t, Kicked(t, rid, h, p)) && NewSettled(t, Kicked(t, rid, h, p))
  {
    hide Keyless, Close, WithKeys;
    var d, m := At(t, rid).deviceID, WithKeys(t, rid, h, p, Established);
    WithKeysKind(t, rid, h, p, Established);
    SameKind(m, Install(t, rid, h, p));
    KindChains(t, m, Install(t, rid, h, p));
    if d in t.byDevice && t.byDevice[d] != rid {
      CloseKind(Install(t, rid, h, p), t.byDevice[d]);
      KindChains(t, Install(t, rid, h, p), Kicked(t, rid, h, p));
    }
  }

  lemma CloseNew(t: Table, m: Table, rid: Route)
    requires Kind(t, m) && NewSettled(t, m)
    ensures Kind(t, Close(m, rid)) && NewSettled(t, Close(m, rid))
  {
    hide Keyless, Close, Settled;
    CloseKind(m, rid);
    KindChains(t, m, Close(m, rid));
  }

  lemma WithKeysNew(t: Table, rid: Route, h: Hello, p: Pair, phase: Phase)
    requires Keyless(t) && Has(t, rid) && h.Hello3? && At(t, rid).state == Hello2 && FreshPair(t, p)
    requires phase !in {ResumeHello, Hello2}
    ensures Kind(t, WithKeys(t, rid, h, p, phase)) && NewSettled(t, WithKeys(t, rid, h, p, phase))
  {
    hide Keyless, WithKeys, Settled;
    WithKeysKind(t, rid, h, p, phase);
  }

  // The third hello leaves its keys held or zeroed if and only if it is not refused after
  // their derivation, or they were zeros to begin with.
  lemma FinishExactly(t: Table, rid: Route, h: Hello, p: Pair)
    requires Core(t) && Keyless(t) && Has(t, rid) && h.Hello3? && FreshPair(t, p)
    ensures Kind(t, FinishHello3(t, rid, h, p))
    ensures NewSettled(t, FinishHello3(t, rid, h, p))
       <==> !(Refused(t, rid, h) && !(Blanked(h.c2s) && Blanked(h.s2c)))
  {
    var v := At(t, rid);
    if !Verified(t, rid, h) {
      hide Core, Keyless, Close;
      CloseKind(t, rid);
    } else {
      hide Core, Keyless, Steady, NewSettled, Close, Blanked, Unsaved, CapReached, ParentReady, WithKeys, FreshPair,
        Kicked;
      if v.upgradeFrom != 0 && ParentReady(t, v) {
        WithKeysNew(t, rid, h, p, UpgradeReady);
        CloseNew(t, WithKeys(t, rid, h, p, UpgradeReady), rid);
      } else if v.upgradeFrom != 0 || CapReached(t, v.deviceID) {
        LeftBehind(t, Derived(t, h, p), rid, h, p);
      } else if !h.saved {
        UnsavedIs(t, rid, h, p);
        LeftBehind(t, Unsaved(t, rid, h, p), rid, h, p);
      } else {
        KickedKind(t, rid, h, p);
        CloseNew(t, Kicked(t, rid, h, p), rid);
      }
    }
  }

  // No new key comes in.
  ghost predicate Still(t: Table, u: Table) {
    Kind(t, u) && u.keys.Keys == t.keys.Keys
  }

  lemma StillChains(t: Table, m: Table, u: Table)
    requires Still(t, m) && Still(m, u)
    ensures Still(t, u)
  {
    hide Kind;
    KindChains(t, m, u);
  }

  lemma Hello1Still(t: Table, rid: Route, h: Hello)
    requires Keyless(t) && Has(t, rid) && h.Hello1?
    ensures Still(t, AnswerHello1(t, rid, h))
  {
    var v, s := At(t, rid), t.sessions[rid];
    assert v.state == ResumeHello ==> v.c2s == null && v.s2c == null;
    hide Keyless, Kind, Close;
    KindStutters(t);
    CloseKind(t, rid);
    if v.state == ResumeHello {
      var w := v.(deviceID := h.device);
      var x := w.(nonce := h.nonce, ephSk := h.ephSk, state := Hello2, epochFailed := v.epochFailed || !h.sent);
      FieldsKind(t, Update(t, rid, w, t.keys), s, w);
      FieldsKind(t, Update(t, rid, x, t.keys), s, x);
      KindIsKeyless(t, Update(t, rid, w, t.keys));
      CloseKind(Update(t, rid, w, t.keys), rid);
      StillChains(t, Update(t, rid, w, t.keys), Close(Update(t, rid, w, t.keys), rid));
    }
  }

  lemma BoundStill(t: Table, s: Sess, rid: Route, conn: Link)
    requires Keyless(t) && s !in t.objs
    ensures Still(t, Bound(t, s, rid, conn))
  {
    hide Kind, Keyless, Erase;
    KindStutters(t);
    var m := if Has(t, rid) then Retire(t, rid, false, false) else t;
    if Has(t, rid) { RetireKind(t, rid, false, false); }
    KindIsKeyless(t, m);
    FieldsKind(m, Bound(t, s, rid, conn), s, NewFields(rid, "", Some(conn), Relay, 0, ""));
    StillChains(t, m, Bound(t, s, rid, conn));
  }

  lemma ExpireStill(t: Table, route: Route, s: Sess)
    requires Keyless(t)
    ensures Still(t, Expire(t, route, s))
  {
    hide Kind, Keyless, Retire;
    KindStutters(t);
    if Has(t, route) { RetireKind(t, route, false, true); }
  }

  lemma PoisonStill(t: Table, s: Sess)
    requires Keyless(t)
    ensures Still(t, Poison(t, s))
  {
    hide Steady;
    KindStutters(t);
    if s in t.objs { FieldsKind(t, Poison(t, s), s, t.objs[s].(epochFailed := true)); }
  }

  lemma DropCandidateStill(t: Table, parent: Route)
    requires Keyless(t)
    ensures Still(t, DropCandidate(t, parent)) && DropCandidate(t, parent).objs.Keys == t.objs.Keys
  {
    hide Kind, Keyless, Erase;
    KindStutters(t);
    if exists r :: HasCandidate(t, r, parent) {
      var c :| HasCandidate(t, c, parent) && DropCandidate(t, parent) == Retire(t, c, false, true);
      RetireKind(t, c, false, true);
    }
  }

  lemma OfferStill(t: Table, parent: Sess, s: Sess, route: Route, link: Link, attempt: string, replied: bool)
    requires Keyless(t) && s !in t.objs
    ensures Still(t, Offer(t, parent, s, route, link, attempt, replied))
  {
    hide Kind, Keyless, DropCandidate, Poison, Expire;
    KindStutters(t);
    if LiveAs(t, parent, Relay) {
      var p := t.objs[parent];
      var v := NewFields(route, p.deviceID, Some(link), P2P, p.routeID, attempt);
      var d := DropCandidate(t, p.routeID);
      DropCandidateStill(t, p.routeID);
      KindIsKeyless(t, d);
      var m := Spawn(d, s, v);
      FieldsKind(d, m, s, v);
      StillChains(t, d, m);
      KindIsKeyless(t, m);
      PoisonStill(m, parent);
      StillChains(t, m, Poison(m, parent));
      KindIsKeyless(t, Poison(m, parent));
      ExpireStill(Poison(m, parent), route, s);
      StillChains(t, Poison(m, parent), Expire(Poison(m, parent), route, s));
    }
  }

  lemma CommitSettled(t: Table, parent: Sess, route: Route, attempt: string, k: Direction)
    requires CommitReady(t, parent, route, attempt) && t.sessions[route] != parent && k in t.keys
    ensures var u := Commit(t, parent, route, attempt, true); k in u.keys && (Settled(u, k) <==> Settled(t, k))
  {
    var u, candidate := Commit(t, parent, route, attempt, true), t.sessions[route];
    hide CommitReady;
    assert Holds(t, parent, k) ==> Blanked(u.keys[k]);
    assert !Holds(t, parent, k) ==> u.keys[k] == t.keys[k];
    assert Holds(u, parent, k) <==> Holds(t, candidate, k);
    assert !Holds(u, candidate, k);
    forall x | x in t.objs && x != parent && x != candidate ensures Holds(u, x, k) <==> Holds(t, x, k) {
    }
  }

  // A commit wipes the keys it replaces, and moves the candidate's to the session that goes on.
  lemma CommitStill(t: Table, parent: Sess, route: Route, attempt: string, sent: bool)
    requires Core(t) && Keyless(t)
    ensures Still(t, Commit(t, parent, route, attempt, sent))
  {
    hide Core, Settled;
    KindStutters(t);
    PoisonStill(t, parent);
    if CommitReady(t, parent, route, attempt) && sent {
      CommitFacts(t, parent, route, attempt);
      forall k | k in t.keys
        ensures var u := Commit(t, parent, route, attempt, true); k in u.keys && (Settled(u, k) <==> Settled(t, k))
      {
        CommitSettled(t, parent, route, attempt, k);
      }
    }
  }

  lemma {:induction false} CloseAllStill(t: Table, routes: seq<Route>)
    requires Keyless(t)
    ensures Still(t, CloseAll(t, routes))
    decreases |routes|
  {
    hide Keyless, Kind, Close;
    KindStutters(t);
    if routes != [] {
      CloseKind(t, routes[0]);
      KindIsKeyless(t, Close(t, routes[0]));
      CloseAllStill(Close(t, routes[0]), routes[1..]);
      StillChains(t, Close(t, routes[0]), CloseAll(t, routes));
    }
  }

  lemma FailEpochStill(t: Table, s: Sess)
    requires Core(t) && Keyless(t)
    ensures Still(t, FailEpoch(t, s))
  {
    KindStutters(t);
    if s in t.objs && !Live(t, s) {
      assert Emptied(t.objs[s]);
      hide Steady, Core;
      FieldsKind(t, FailEpoch(t, s), s, Cleared(t.objs[s], true));
    } else if s in t.objs {
      CloseKind(t, t.objs[s].routeID);
    }
  }

  // ---------------------------------------------------------------- every step and every run

  // A forwarded frame that is a refused third hello, with keys that are not zeros.
  ghost predicate Leaks(t: Table, rid: Route, h: Hello) {
    && Has(t, rid) && !At(t, rid).epochFailed && At(t, rid).state != Established && h.Hello3?
    && Refused(t, rid, h) && !(Blanked(h.c2s) && Blanked(h.s2c))
  }

  ghost predicate StepLeaks(t: Table, e: Event) {
    match e
    case EvForward(rid, _, h, _) => Leaks(t, rid, h)
    case EvDirect(rid, conn, _, h, _) => Has(t, rid) && At(t, rid).link == Some(conn) && Leaks(t, rid, h)
    case _ => false
  }

  lemma StillIsNew(t: Table, u: Table)
    requires Still(t, u)
    ensures Kind(t, u) && NewSettled(t, u)
  {
    hide Kind;
  }

  lemma ForwardExactly(t: Table, rid: Route, opens: bool, h: Hello, p: Pair)
    requires Core(t) && Keyless(t) && FreshPair(t, p)
    ensures Kind(t, Forward(t, rid, opens, h, p))
    ensures NewSettled(t, Forward(t, rid, opens, h, p)) <==> !Leaks(t, rid, h)
  {
    hide Keyless, Core, Close, AnswerHello1, FinishHello3, FreshPair, Kind, NewSettled, Refused, Blanked;
    KindStutters(t);
    StillIsNew(t, t);
    CloseKind(t, rid);
    StillIsNew(t, Close(t, rid));
    if Has(t, rid) && At(t, rid).state != Established && h.Hello1? {
      Hello1Still(t, rid, h);
      StillIsNew(t, AnswerHello1(t, rid, h));
    }
    if Has(t, rid) && At(t, rid).state != Established && h.Hello3? {
      FinishExactly(t, rid, h, p);
    }
  }

  // No step moves a known key between settled and left behind, and the new keys of a step are
  // settled if and only if it is not a refused third hello.
  lemma StepExactly(t: Table, e: Event)
    requires Core(t) && Keyless(t) && Fair(t, e)
    ensures Kind(t, Step(t, e)) && (NewSettled(t, Step(t, e)) <==> !StepLeaks(t, e))
  {
    hide Core, Keyless, Kind, NewSettled, Close, Forward, CloseAll, Commit, Offer, Expire, FailEpoch, Bound,
      FreshPair, Leaks;
    KindStutters(t);
    match e
    case EvForward(rid, opens, h, p) => ForwardExactly(t, rid, opens, h, p);
    case EvDirect(rid, conn, opens, h, p) =>
      ForwardExactly(t, rid, opens, h, p);
      StillIsNew(t, t);
    case _ =>
      OtherStill(t, e);
      StillIsNew(t, Step(t, e));
  }

  lemma OtherStill(t: Table, e: Event)
    requires Core(t) && Keyless(t) && Fair(t, e) && !e.EvForward? && !e.EvDirect?
    ensures Still(t, Step(t, e))
  {
    hide Core, Keyless, Kind, Close, Forward, CloseAll, Commit, Offer, Expire, FailEpoch, Bound, FreshPair;
    KindStutters(t);
    match e
    case EvBound(s, rid, conn) => BoundStill(t, s, rid, conn);
    case EvError(rid) => CloseKind(t, rid);
    case EvOffer(parent, s, route, link, attempt, sent) => OfferStill(t, parent, s, route, link, attempt, sent);
    case EvCommit(parent, route, attempt, sent) => CommitStill(t, parent, route, attempt, sent);
    case EvExpire(route, s) => ExpireStill(t, route, s);
    case EvDirectClose(rid, conn) => CloseKind(t, rid);
    case EvFailEpoch(s) => FailEpochStill(t, s);
    case EvReset(order) => CloseAllStill(t, order);
    case EvRevoke(d, order) =>
      var m := t.(revoked := t.revoked[d := true]);
      SameKind(t, m);
      KindIsKeyless(t, m);
      CloseAllStill(m, order);
      StillChains(t, m, CloseAll(m, order));
  }

  ghost predicate RunLeaks(t: Table, events: seq<Event>)
    decreases |events|
  {
    events != [] && (StepLeaks(t, events[0]) || RunLeaks(Step(t, events[0]), events[1..]))
  }

  // Over any run, failed saves included: a key that some session holds is zeroed once none does.
  lemma {:induction false} RunKind(t: Table, events: seq<Event>)
    requires Core(t) && Keyless(t) && FairRun(t, events)
    ensures Kind(t, Run(t, events))
    decreases |events|
  {
    hide Core, Keyless, Kind, Step, Fair, NewSettled, StepLeaks, Progress, Indexed, Saves;
    KindStutters(t);
    if events != [] {
      var m := Step(t, events[0]);
      StepKeeps(t, events[0]);
      StepExactly(t, events[0]);
      KindIsKeyless(t, m);
      RunKind(m, events[1..]);
      KindChains(t, m, Run(t, events));
    }
  }

  lemma KeysAreWiped(t: Table, s: Sess, k: Direction, events: seq<Event>)
    requires Core(t) && Keyless(t) && FairRun(t, events) && Holds(t, s, k)
    ensures var u := Run(t, events);
      k in u.keys && (Blanked(u.keys[k]) || exists x :: x in u.objs && Live(u, x) && Holds(u, x, k))
  {
    assert HoldsKeys(t, t.objs[s]);
    RunKind(t, events);
    RunKeeps(t, events);
    hide FairRun, Run;
    var u := Run(t, events);
    assert Settled(t, k) && Settled(u, k);
    if !Blanked(u.keys[k]) {
      var x :| x in u.objs && Holds(u, x, k);
      HolderIsLive(u, x, k);
    }
  }

  lemma HolderIsLive(t: Table, s: Sess, k: Direction)
    requires Core(t) && Holds(t, s, k)
    ensures Live(t, s)
  {
    hide Owned, Sound, Candidates;
  }

  // From a table without stray keys, a run leaves every key held or all zeros if and only if
  // none of its third hellos is refused after its keys were derived.
  lemma {:induction false} RunCleanExactly(t: Table, events: seq<Event>)
    requires Clean(t) && FairRun(t, events)
    ensures Spotless(Run(t, events)) <==> !RunLeaks(t, events)
    decreases |events|
  {
    hide Core, Keyless, Kind, Step, Fair, NewSettled, StepLeaks, Progress, Indexed, Saves, Spotless;
    if events != [] {
      var m := Step(t, events[0]);
      StepKeeps(t, events[0]);
      StepExactly(t, events[0]);
      KindIsKeyless(t, m);
      SpotlessExactly(t, m);
      if StepLeaks(t, events[0]) {
        RunKind(m, events[1..]);
        StrayStays(m, Run(m, events[1..]));
      } else {
        RunCleanExactly(m, events[1..]);
      }
    }
  }

  lemma StrayStays(t: Table, u: Table)
    requires Kind(t, u) && !Spotless(t)
    ensures !Spotless(u)
  {
    hide Settled;
  }
}
