/**
  A revoked device stays out: once it is revoked and has no session, no run of handshakes,
  offers, commits, timers and resets gives it one.
 */
module SessionBans {
  import opened Basics
  import opened SessionTable
  import opened SessionSteps
  import opened SessionRuns

  ghost predicate Banned(t: Table, d: DeviceId) {
    d in t.revoked && t.revoked[d] && forall r :: Has(t, r) ==> At(t, r).deviceID != d
  }

  // Every route left was there before, for the same device.
  ghost predicate SameDevices(t: Table, u: Table) {
    u.revoked == t.revoked && forall r :: Has(u, r) ==> Has(t, r) && At(u, r).deviceID == At(t, r).deviceID
  }

  lemma BannedStays(t: Table, u: Table, d: DeviceId)
    requires Banned(t, d) && SameDevices(t, u)
    ensures Banned(u, d)
  {
  }

  lemma SameChains(t: Table, m: Table, u: Table)
    requires SameDevices(t, m) && SameDevices(m, u)
    ensures SameDevices(t, u)
  {
  }

  lemma RetireSame(t: Table, rid: Route, dropTerminal: bool, hangUp: bool)
    requires Has(t, rid)
    ensures SameDevices(t, Retire(t, rid, dropTerminal, hangUp))
  {
    hide Erase;
  }

  lemma CloseSame(t: Table, rid: Route)
    ensures SameDevices(t, Close(t, rid))
  {
    hide Retire;
    if Has(t, rid) {
      RetireSame(Unindex(t, rid), rid, true, t.objs[t.sessions[rid]].transport == P2P);
      assert SameDevices(t, Unindex(t, rid));
    }
  }

  lemma UpdateSame(t: Table, rid: Route, v: Fields, keys: map<Direction, Bytes>)
    requires Has(t, rid) && v.deviceID == At(t, rid).deviceID
    ensures SameDevices(t, Update(t, rid, v, keys))
  {
  }

  // The first hello names the session's device: a revoked one costs it the session.
  lemma Hello1Banned(t: Table, rid: Route, h: Hello, d: DeviceId)
    requires Core(t) && Has(t, rid) && h.Hello1? && Banned(t, d)
    ensures Banned(AnswerHello1(t, rid, h), d)
  {
    hide Core, Close, Banned, SameDevices, Update;
    var v := At(t, rid);
    var w := v.(deviceID := h.device);
    BannedFacts(t, d);
    CloseSame(t, rid);
    BannedStays(t, Close(t, rid), d);
    if h.device == d {
      NamedIsClosed(t, rid, w, d);
    } else {
      RenamedBanned(t, rid, w, d);
      CloseSame(Update(t, rid, w, t.keys), rid);
      BannedStays(Update(t, rid, w, t.keys), Close(Update(t, rid, w, t.keys), rid), d);
      RenamedBanned(t, rid, w.(nonce := h.nonce, ephSk := h.ephSk, state := Hello2,
                               epochFailed := v.epochFailed || !h.sent), d);
    }
  }

  lemma BannedFacts(t: Table, d: DeviceId)
    requires Banned(t, d)
    ensures d in t.revoked && t.revoked[d]
  {
  }

  lemma NamedIsClosed(t: Table, rid: Route, w: Fields, d: DeviceId)
    requires Core(t) && Has(t, rid) && Banned(t, d)
    ensures Banned(Close(Update(t, rid, w, t.keys), rid), d)
  {
    OnlyRoute(t, rid);
    hide Core, Close;
    var m := Update(t, rid, w, t.keys);
    CloseSame(m, rid);
    CloseGone(m, rid);
  }

  lemma RenamedBanned(t: Table, rid: Route, w: Fields, d: DeviceId)
    requires Has(t, rid) && Banned(t, d) && w.deviceID != d
    ensures Banned(Update(t, rid, w, t.keys), d)
  {
    var u := Update(t, rid, w, t.keys);
    forall r | Has(u, r) ensures At(u, r).deviceID != d {
      assert Has(t, r);
    }
  }

  lemma CloseGone(t: Table, rid: Route)
    ensures !Has(Close(t, rid), rid)
  {
    hide Erase;
  }

  lemma OnlyRoute(t: Table, rid: Route)
    requires Core(t) && Has(t, rid)
    ensures forall r :: Has(t, r) && r != rid ==> t.sessions[r] != t.sessions[rid]
  {
  }

  lemma CloseAfter(t: Table, m: Table, rid: Route)
    requires SameDevices(t, m)
    ensures SameDevices(t, Close(m, rid))
  {
    hide Close, SameDevices;
    CloseSame(m, rid);
    SameChains(t, m, Close(m, rid));
  }

  lemma PartsSame(t: Table, rid: Route, h: Hello, p: Pair)
    requires Has(t, rid) && h.Hello3?
    ensures SameDevices(t, Derived(t, h, p)) && SameDevices(t, WithKeys(t, rid, h, p, UpgradeReady))
    ensures SameDevices(t, Unsaved(t, rid, h, p)) && SameDevices(t, Install(t, rid, h, p))
  {
  }

  lemma KickedSame(t: Table, rid: Route, h: Hello, p: Pair)
    requires Has(t, rid) && h.Hello3?
    ensures SameDevices(t, Kicked(t, rid, h, p))
  {
    hide Close, Install, SameDevices;
    PartsSame(t, rid, h, p);
    var d := At(t, rid).deviceID;
    if d in t.byDevice { CloseAfter(t, Install(t, rid, h, p), t.byDevice[d]); }
  }

  lemma FinishSame(t: Table, rid: Route, h: Hello, p: Pair)
    requires Has(t, rid) && h.Hello3?
    ensures SameDevices(t, FinishHello3(t, rid, h, p))
  {
    hide Close, Verified, CapReached, ParentReady, WithKeys, Unsaved, Kicked, Derived, SameDevices;
    CloseSame(t, rid);
    PartsSame(t, rid, h, p);
    KickedSame(t, rid, h, p);
    CloseAfter(t, Derived(t, h, p), rid);
    CloseAfter(t, WithKeys(t, rid, h, p, UpgradeReady), rid);
    CloseAfter(t, Unsaved(t, rid, h, p), rid);
    CloseAfter(t, Kicked(t, rid, h, p), rid);
  }

  lemma ForwardBanned(t: Table, rid: Route, opens: bool, h: Hello, p: Pair, d: DeviceId)
    requires Core(t) && Banned(t, d)
    ensures Banned(Forward(t, rid, opens, h, p), d)
  {
    hide Core, Close, AnswerHello1, FinishHello3, Banned;
    CloseSame(t, rid);
    BannedStays(t, Close(t, rid), d);
    if Has(t, rid) && h.Hello1? { Hello1Banned(t, rid, h, d); }
    if Has(t, rid) && h.Hello3? {
      FinishSame(t, rid, h, p);
      BannedStays(t, FinishHello3(t, rid, h, p), d);
    }
  }

  // A new route has no device yet, or the device of the session that asked for it.
  lemma BoundBanned(t: Table, s: Sess, rid: Route, conn: Link, d: DeviceId)
    requires Core(t) && Banned(t, d) && s !in t.objs && d != ""
    ensures Banned(Bound(t, s, rid, conn), d)
  {
    EntriesAreKnown(t);
    hide Core, Erase;
  }

  lemma DropSame(t: Table, parent: Route)
    ensures SameDevices(t, DropCandidate(t, parent)) && DropCandidate(t, parent).objs.Keys == t.objs.Keys
  {
    hide Erase;
    if exists r :: HasCandidate(t, r, parent) {
      var c :| HasCandidate(t, c, parent) && DropCandidate(t, parent) == Retire(t, c, false, true);
      RetireSame(t, c, false, true);
    }
  }

  lemma DropKnown(t: Table, parent: Route)
    requires Core(t)
    ensures forall r :: r in DropCandidate(t, parent).sessions ==> Has(DropCandidate(t, parent), r)
  {
    EntriesAreKnown(t);
    hide Core, Erase;
  }

  lemma ExpireSame(t: Table, route: Route, s: Sess)
    ensures SameDevices(t, Expire(t, route, s))
  {
    if Has(t, route) { RetireSame(t, route, false, true); }
  }

  lemma OfferBanned(t: Table, parent: Sess, s: Sess, route: Route, link: Link, attempt: string, replied: bool,
                    d: DeviceId)
    requires Core(t) && Banned(t, d) && s !in t.objs
    ensures Banned(Offer(t, parent, s, route, link, attempt, replied), d)
  {
    hide Core, DropCandidate, Expire;
    if LiveAs(t, parent, Relay) {
      var p := t.objs[parent];
      assert At(t, p.routeID) == p;
      DropSame(t, p.routeID);
      DropKnown(t, p.routeID);
      var v := NewFields(route, p.deviceID, Some(link), P2P, p.routeID, attempt);
      var m := Spawn(DropCandidate(t, p.routeID), s, v);
      assert Banned(m, d);
      assert SameDevices(m, Poison(m, parent));
      ExpireSame(Poison(m, parent), route, s);
      SameChains(m, Poison(m, parent), Expire(Poison(m, parent), route, s));
    }
  }

  lemma CommitSame(t: Table, parent: Sess, route: Route, attempt: string, sent: bool)
    requires Core(t)
    ensures SameDevices(t, Commit(t, parent, route, attempt, sent))
  {
    if CommitReady(t, parent, route, attempt) {
      OnlyRoute(t, route);
      OnlyRoute(t, t.objs[parent].routeID);
    }
    hide Core, Erase;
  }

  lemma {:induction false} CloseAllSame(t: Table, routes: seq<Route>)
    ensures SameDevices(t, CloseAll(t, routes))
    decreases |routes|
  {
    hide Close;
    if routes != [] {
      CloseSame(t, routes[0]);
      CloseAllSame(Close(t, routes[0]), routes[1..]);
      SameChains(t, Close(t, routes[0]), CloseAll(t, routes));
    }
  }

  lemma FailEpochSame(t: Table, s: Sess)
    ensures SameDevices(t, FailEpoch(t, s))
  {
    if s in t.objs { CloseSame(t, t.objs[s].routeID); }
    hide Close;
  }

  lemma MoreRevoked(t: Table, x: DeviceId, d: DeviceId)
    requires Banned(t, d)
    ensures Banned(t.(revoked := t.revoked[x := true]), d)
  {
    var u := t.(revoked := t.revoked[x := true]);
    forall r | Has(u, r) ensures At(u, r).deviceID != d {
      assert Has(t, r);
    }
  }

  lemma StepBanned(t: Table, e: Event, d: DeviceId)
    requires Core(t) && Fair(t, e) && Banned(t, d) && d != ""
    ensures Banned(Step(t, e), d)
  {
    hide Core, Close, Forward, CloseAll, Commit, Offer, Expire, FailEpoch, Bound, FreshPair, SameDevices;
    match e
    case EvBound(s, rid, conn) => BoundBanned(t, s, rid, conn, d);
    case EvForward(rid, opens, h, p) => ForwardBanned(t, rid, opens, h, p, d);
    case EvDirect(rid, conn, opens, h, p) => ForwardBanned(t, rid, opens, h, p, d);
    case EvError(rid) => CloseSame(t, rid); BannedStays(t, Close(t, rid), d);
    case EvOffer(parent, s, route, link, attempt, sent) => OfferBanned(t, parent, s, route, link, attempt, sent, d);
    case EvCommit(parent, route, attempt, sent) =>
      CommitSame(t, parent, route, attempt, sent);
      BannedStays(t, Commit(t, parent, route, attempt, sent), d);
    case EvExpire(route, s) => ExpireSame(t, route, s); BannedStays(t, Expire(t, route, s), d);
    case EvDirectClose(rid, conn) => CloseSame(t, rid); BannedStays(t, Close(t, rid), d);
    case EvFailEpoch(s) => FailEpochSame(t, s); BannedStays(t, FailEpoch(t, s), d);
    case EvReset(order) => CloseAllSame(t, order); BannedStays(t, CloseAll(t, order), d);
    case EvRevoke(x, order) =>
      var m := t.(revoked := t.revoked[x := true]);
      CloseAllSame(m, order);
      MoreRevoked(t, x, d);
      BannedStays(m, CloseAll(m, order), d);
  }

  // Over any run, failed saves included.
  lemma {:induction false} RunBanned(t: Table, events: seq<Event>, d: DeviceId)
    requires Core(t) && FairRun(t, events) && Banned(t, d) && d != ""
    ensures Banned(Run(t, events), d)
    decreases |events|
  {
    hide Core, Step, Fair, Banned, Progress, Indexed, Saves;
    if events != [] {
      StepKeeps(t, events[0]);
      StepBanned(t, events[0], d);
      RunBanned(Step(t, events[0]), events[1..], d);
    }
  }

  // From the revocation on, the device never has a session again.
  lemma RevokedIsForever(t: Table, d: DeviceId, order: seq<Route>, events: seq<Event>, r: Route)
    requires Core(t) && d in t.revoked && !t.revoked[d] && d != ""
    requires forall x :: x in order <==> x in t.sessions && At(t, x).deviceID == d
    requires FairRun(Step(t, EvRevoke(d, order)), events)
    ensures var u := Run(Step(t, EvRevoke(d, order)), events); Has(u, r) ==> At(u, r).deviceID != d
  {
    RevokeEndsDevice(t, d, order);
    StepKeeps(t, EvRevoke(d, order));
    hide Core, Step, FairRun, Run, Progress, Indexed;
    RunBanned(Step(t, EvRevoke(d, order)), events, d);
  }
}
