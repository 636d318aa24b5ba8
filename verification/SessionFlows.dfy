/**
  The ways through the session handlers that succeed: a finished handshake, and a P2P upgrade
  from its offer to its commit.
 */
module SessionFlows {
  import opened Basics
  import opened SessionTable
  import opened SessionSteps
  import opened SessionRuns
  import opened SessionKeys

  // The route a device's session had before, if it was another one.
  ghost predicate Older(t: Table, rid: Route, r: Route)
    requires Has(t, rid)
  {
    At(t, rid).deviceID in t.byDevice && t.byDevice[At(t, rid).deviceID] == r && r != rid
  }

  // A verified third message with a successful save establishes the session it came for, under
  // the keys it agreed on; the index points at it, and only the device's older session goes.
  lemma FinishEstablishes(t: Table, rid: Route, h: Hello, p: Pair)
    requires Core(t) && Has(t, rid) && h.Hello3? && FreshPair(t, p) && ReachesSave(t, rid, h) && h.saved && h.sent
    ensures var u, d := FinishHello3(t, rid, h, p), At(t, rid).deviceID;
      && EstablishedAt(u, d, rid) && d in u.byDevice && u.byDevice[d] == rid && u.sessions[rid] == t.sessions[rid]
      && At(u, rid).c2s == p.c2s && At(u, rid).s2c == p.s2c
  {
    hide Core, ReachesSave, Verified, CapReached, Install, Close;
    var d := At(t, rid).deviceID;
    SaveFacts(t, rid, h);
    InstallIs(t, rid, h, p);
    if d in t.byDevice && t.byDevice[d] != rid {
      OlderFacts(t, rid, d);
      CloseSpares(Install(t, rid, h, p), t.byDevice[d], rid, d);
    }
  }

  lemma InstallIs(t: Table, rid: Route, h: Hello, p: Pair)
    requires Has(t, rid) && h.Hello3?
    ensures var m, d := Install(t, rid, h, p), At(t, rid).deviceID;
      && EstablishedAt(m, d, rid) && d in m.byDevice && m.byDevice[d] == rid && m.sessions == t.sessions
      && At(m, rid).c2s == p.c2s && At(m, rid).s2c == p.s2c && m.objs.Keys == t.objs.Keys
  {
  }

  // Closing one route leaves a session at another, and its index entry.
  lemma CloseSpares(t: Table, r: Route, rid: Route, d: DeviceId)
    requires Has(t, r) && Has(t, rid) && r != rid && t.sessions[r] != t.sessions[rid]
    requires d in t.byDevice && t.byDevice[d] == rid
    ensures var u := Close(t, r);
      && Has(u, rid) && u.sessions[rid] == t.sessions[rid] && At(u, rid) == At(t, rid)
      && d in u.byDevice && u.byDevice[d] == rid
  {
    hide Erase;
  }

  lemma FinishInstallsKeys(t: Table, rid: Route, h: Hello, p: Pair)
    requires Core(t) && Has(t, rid) && h.Hello3? && FreshPair(t, p) && ReachesSave(t, rid, h) && h.saved && h.sent
    ensures var u := FinishHello3(t, rid, h, p);
      p.c2s in u.keys && p.s2c in u.keys && u.keys[p.c2s] == h.c2s && u.keys[p.s2c] == h.s2c
  {
    var d := At(t, rid).deviceID;
    if d in t.byDevice { OlderFacts(t, rid, d); }
    SaveFacts(t, rid, h);
    hide Core, ReachesSave, Verified, CapReached, Indexed;
  }

  lemma SaveFacts(t: Table, rid: Route, h: Hello)
    requires Has(t, rid) && h.Hello3? && ReachesSave(t, rid, h)
    ensures Verified(t, rid, h) && At(t, rid).upgradeFrom == 0 && !CapReached(t, At(t, rid).deviceID)
  {
  }

  lemma OlderFacts(t: Table, rid: Route, d: DeviceId)
    requires Core(t) && Has(t, rid) && d in t.byDevice
    ensures var r := t.byDevice[d];
      && EstablishedAt(t, d, r) && Has(t, r) && (r != rid ==> t.sessions[r] != t.sessions[rid])
      && (At(t, r).c2s != null ==> At(t, r).c2s in t.keys) && (At(t, r).s2c != null ==> At(t, r).s2c in t.keys)
  {
    assert HoldsKeys(t, At(t, t.byDevice[d]));
  }

  lemma FinishKicksOnlyOlder(t: Table, rid: Route, h: Hello, p: Pair, r: Route)
    requires Core(t) && Has(t, rid) && h.Hello3? && FreshPair(t, p) && ReachesSave(t, rid, h) && h.saved && h.sent
    requires r != rid
    ensures var u := FinishHello3(t, rid, h, p);
      && (Older(t, rid, r) ==>
           r !in u.sessions && Has(t, r) && t.sessions[r] in u.objs && Emptied(u.objs[t.sessions[r]]))
      && (!Older(t, rid, r) && Has(t, r) ==> Has(u, r) && u.sessions[r] == t.sessions[r] && At(u, r) == At(t, r))
  {
    hide Owned, Candidates, Erase;
    var d := At(t, rid).deviceID;
    if d in t.byDevice { assert EstablishedAt(t, d, t.byDevice[d]); }
  }

  // ---------------------------------------------------------------- an upgrade

  // An offer that is answered leaves one new candidate under the parent, which stays as it was.
  lemma OfferMakesCandidate(t: Table, parent: Sess, s: Sess, route: Route, link: Link, attempt: string)
    requires Core(t) && LiveAs(t, parent, Relay) && s !in t.objs && route !in t.sessions && route != 0
    ensures var u, p := Offer(t, parent, s, route, link, attempt, true), t.objs[parent];
      && Has(u, route) && u.sessions[route] == s
      && At(u, route) == NewFields(route, p.deviceID, Some(link), P2P, p.routeID, attempt)
      && LiveAs(u, parent, Relay) && u.objs[parent] == p
      && u.keys.Keys == t.keys.Keys && u.revoked == t.revoked
      && forall r :: HasCandidate(u, r, p.routeID) ==> r == route
  {
    hide DropCandidate, Core, Kept;
    var p := t.objs[parent];
    ParentFacts(t, parent);
    DropCandidateKeeps(t, p.routeID);
    DropFrame(t, p.routeID);
    var d := DropCandidate(t, p.routeID);
    assert Has(d, p.routeID) && At(d, p.routeID) == p && d.sessions[p.routeID] == parent;
    KeptIsCore(t, d);
    EntriesAreKnown(d);
    var u := Offer(t, parent, s, route, link, attempt, true);
    assert forall r :: Has(u, r) && r != route ==> Has(d, r) && At(u, r) == At(d, r);
  }

  // An established session is nobody's candidate.
  lemma ParentFacts(t: Table, parent: Sess)
    requires Core(t) && LiveAs(t, parent, Relay)
    ensures var p := t.objs[parent];
      p.routeID != 0 && Has(t, p.routeID) && At(t, p.routeID) == p && p.upgradeFrom == 0 && p.s2c != null
  {
    assert CandidateShape(t.objs[parent]) && HoldsKeys(t, t.objs[parent]);
  }

  lemma DropFrame(t: Table, parent: Route)
    ensures DropCandidate(t, parent).keys.Keys == t.keys.Keys && DropCandidate(t, parent).revoked == t.revoked
  {
  }

  // Both hellos of the candidate's own handshake, from its own device.
  lemma CandidateShakesHands(t: Table, route: Route, h1: Hello, h3: Hello, p: Pair)
    requires Core(t) && Has(t, route) && At(t, route).state == ResumeHello && !At(t, route).epochFailed
    requires h1.Hello1? && |h1.nonce| == NONCE_BYTES && h1.admitted && h1.sent && h1.device == At(t, route).deviceID
    requires h1.device in t.revoked && !t.revoked[h1.device]
    requires h3.Hello3? && h3.proofOk && h3.sent && FreshPair(t, p)
    requires At(t, route).upgradeFrom != 0 && ParentReady(t, At(t, route))
    ensures var u := Forward(Forward(t, route, true, h1, p), route, true, h3, p);
      && Has(u, route) && u.sessions == t.sessions
      && At(u, route)
         == At(t, route).(nonce := h1.nonce, ephSk := h1.ephSk, state := UpgradeReady, c2s := p.c2s, s2c := p.s2c)
      && u.objs == t.objs[t.sessions[route] := At(u, route)]
  {
    hide Owned, Candidates, Sound;
    var v := At(t, route);
    var parent := v.upgradeFrom;
    assert t.sessions[parent] != t.sessions[route];
    var m := Forward(t, route, true, h1, p);
    assert m == Update(t, route, v.(nonce := h1.nonce, ephSk := h1.ephSk, state := Hello2), t.keys);
    assert At(m, parent) == At(t, parent) && ParentReady(m, At(m, route));
    assert Verified(m, route, h3);
  }

  // Offer, two hellos over the candidate's link, commit: if every message gets through, the
  // parent object is then the device's session on the direct route.
  lemma UpgradeCompletes(t: Table, parent: Sess, s: Sess, route: Route, link: Link, attempt: string, h1: Hello,
                         h3: Hello, p: Pair)
    requires Core(t) && LiveAs(t, parent, Relay) && !t.objs[parent].epochFailed
    requires s !in t.objs && route !in t.sessions && route != 0 && FreshPair(t, p)
    requires h1.Hello1? && |h1.nonce| == NONCE_BYTES && h1.admitted && h1.sent && h1.device == t.objs[parent].deviceID
    requires h1.device in t.revoked && !t.revoked[h1.device]
    requires h3.Hello3? && h3.proofOk && h3.sent
    ensures var w := Upgrade(t, parent, s, route, link, attempt, h1, h3, p);
      && route in w.sessions && w.sessions[route] == parent && parent in w.objs && w.objs[parent].transport == P2P
      && w.objs[parent].state == Established && w.objs[parent].link == Some(link)
      && w.objs[parent].c2s == p.c2s && w.objs[parent].s2c == p.s2c
      && w.objs[parent].terminal == t.objs[parent].terminal
      && t.objs[parent].routeID !in w.sessions
  {
    hide Core, Offer, Forward, Kept, Commit;
    ParentFacts(t, parent);
    OfferMakesCandidate(t, parent, s, route, link, attempt);
    OfferKeeps(t, parent, s, route, link, attempt, true);
    var o := Offer(t, parent, s, route, link, attempt, true);
    assert Core(o) by { KeptIsCore(t, o); }
    CandidateShakesHands(o, route, h1, h3, p);
    var u := Forward(Forward(o, route, true, h1, p), route, true, h3, p);
    CommitGoesThrough(u, parent, route, attempt);
  }

  lemma KeptIsCore(t: Table, u: Table)
    requires Kept(t, u)
    ensures Core(u)
  {
  }

  lemma CommitGoesThrough(t: Table, parent: Sess, route: Route, attempt: string)
    requires CommitReady(t, parent, route, attempt) && t.sessions[route] != parent
    requires t.objs[parent].routeID != route
    ensures var w, c := Commit(t, parent, route, attempt, true), At(t, route);
      && route in w.sessions && w.sessions[route] == parent && parent in w.objs && w.objs[parent].transport == P2P
      && w.objs[parent].state == Established && w.objs[parent].link == c.link
      && w.objs[parent].c2s == c.c2s && w.objs[parent].s2c == c.s2c
      && w.objs[parent].terminal == t.objs[parent].terminal
      && t.objs[parent].routeID !in w.sessions
  {
  }

  ghost function Upgrade(t: Table, parent: Sess, s: Sess, route: Route, link: Link, attempt: string, h1: Hello,
                         h3: Hello, p: Pair): Table
  {
    var o := Offer(t, parent, s, route, link, attempt, true);
    Commit(Forward(Forward(o, route, true, h1, p), route, true, h3, p), parent, route, attempt, true)
  }

  // ---------------------------------------------------------------- the two failures, from an empty table

  ghost function Unused(d: DeviceId): Table { Table(map[], map[], map[d := false], {}, map[], map[]) }

  function Nonce(): (n: Bytes)
    ensures |n| == NONCE_BYTES
  {
    [0, 0, 0, 0, 0, 0, 0, 0, 0, 0, 0, 0, 0, 0, 0, 0]
  }

  function First(d: DeviceId): Hello { Hello1(d, Nonce(), [], true, true) }

  function Third(saved: bool): Hello { Hello3(true, [1], [2], saved, true) }

  // A whole handshake on a new route.
  function Login(s: Sess, rid: Route, d: DeviceId, p: Pair, saved: bool): seq<Event> {
    [EvBound(s, rid, 0), EvForward(rid, true, First(d), p), EvForward(rid, true, Third(saved), p)]
  }

  // No other device has a session, and a handshake of this one can begin.
  ghost predicate Lone(t: Table, d: DeviceId) {
    Core(t) && d in t.revoked && !t.revoked[d] && OthersEstablished(t, d) == {}
  }

  ghost predicate New(t: Table, s: Sess, rid: Route, p: Pair) {
    s !in t.objs && rid !in t.sessions && rid != 0 && FreshPair(t, p)
  }

  // After the second message, before the third.
  ghost function Waiting(t: Table, s: Sess, rid: Route, d: DeviceId): Table {
    Spawn(t, s, NewFields(rid, d, Some(0), Relay, 0, "").(nonce := Nonce(), state := Hello2))
  }

  lemma LoginRuns(t: Table, s: Sess, rid: Route, d: DeviceId, p: Pair, saved: bool)
    requires Lone(t, d) && New(t, s, rid, p)
    ensures Has(Waiting(t, s, rid, d), rid) && Core(Waiting(t, s, rid, d))
    ensures Run(t, Login(s, rid, d, p, saved)) == FinishHello3(Waiting(t, s, rid, d), rid, Third(saved), p)
  {
    hide Core, FinishHello3, FreshPair;
    var events, w := Login(s, rid, d, p, saved), Waiting(t, s, rid, d);
    var b := Bound(t, s, rid, 0);
    assert Has(b, rid) && At(b, rid) == NewFields(rid, "", Some(0), Relay, 0, "");
    assert AnswerHello1(b, rid, First(d)).objs == w.objs;
    assert AnswerHello1(b, rid, First(d)) == w;
    assert Core(w) by {
      BoundKeeps(t, s, rid, 0);
      KeptIsCore(t, b);
      Hello1Keeps(b, rid, First(d));
      KeptIsCore(b, w);
    }
    assert Forward(b, rid, true, First(d), p) == w;
    RunThree(t, events);
  }

  lemma RunThree(t: Table, events: seq<Event>)
    requires |events| == 3
    ensures Run(t, events) == Step(Step(Step(t, events[0]), events[1]), events[2])
  {
    hide Step;
    assert events[1..][1..] == [events[2]] && [events[2]][1..] == [];
    assert Run(t, events) == Run(Step(t, events[0]), events[1..]);
    assert Run(Step(t, events[0]), events[1..]) == Run(Step(Step(t, events[0]), events[1]), [events[2]]);
    assert Run(Step(Step(Step(t, events[0]), events[1]), events[2]), [])
        == Step(Step(Step(t, events[0]), events[1]), events[2]);
  }

  lemma LoginReaches(t: Table, s: Sess, rid: Route, d: DeviceId, p: Pair, saved: bool)
    requires Lone(t, d) && New(t, s, rid, p)
    ensures ReachesSave(Waiting(t, s, rid, d), rid, Third(saved)) && FreshPair(Waiting(t, s, rid, d), p)
  {
    hide Core;
    var w := Waiting(t, s, rid, d);
    assert OthersEstablished(w, d) == {} by {
      forall r | r in OthersEstablished(w, d) ensures r in OthersEstablished(t, d) {
      }
    }
  }

  // A login whose save succeeds takes over from the device's session, if the index has one.
  lemma LoginEstablishes(t: Table, s: Sess, rid: Route, d: DeviceId, p: Pair)
    requires Lone(t, d) && New(t, s, rid, p)
    ensures var u := Run(t, Login(s, rid, d, p, true));
        EstablishedAt(u, d, rid) && d in u.byDevice && u.byDevice[d] == rid
  {
    hide Run, Core, Waiting, ReachesSave, FreshPair, FinishHello3;
    LoginRuns(t, s, rid, d, p, true);
    LoginReaches(t, s, rid, d, p, true);
    WaitingIs(t, s, rid, d);
    FinishEstablishes(Waiting(t, s, rid, d), rid, Third(true), p);
  }

  lemma WaitingIs(t: Table, s: Sess, rid: Route, d: DeviceId)
    ensures var w := Waiting(t, s, rid, d); Has(w, rid) && At(w, rid).deviceID == d && w.byDevice == t.byDevice
  {
  }

  lemma LoginLoses(t: Table, s: Sess, rid: Route, d: DeviceId, p: Pair)
    requires Lone(t, d) && New(t, s, rid, p) && d in t.byDevice
    ensures var u := Run(t, Login(s, rid, d, p, false)); EstablishedAt(u, d, t.byDevice[d]) && d !in u.byDevice
  {
    hide Run, Core, Waiting, ReachesSave, FreshPair, FinishHello3;
    LoginRuns(t, s, rid, d, p, false);
    LoginReaches(t, s, rid, d, p, false);
    WaitingIs(t, s, rid, d);
    OrphanStays(Waiting(t, s, rid, d), rid, Third(false), p);
  }

  // What a later login of the device needs to know of an earlier one.
  ghost predicate Near(t: Table, u: Table, d: DeviceId) {
    && u.objs.Keys == t.objs.Keys && u.sessions.Keys <= t.sessions.Keys && u.revoked == t.revoked
    && OthersEstablished(u, d) <= OthersEstablished(t, d)
  }

  lemma CloseNear(t: Table, r: Route, d: DeviceId)
    ensures Near(t, Close(t, r), d) && Close(t, r).keys.Keys == t.keys.Keys
  {
    var u := Close(t, r);
    forall x | x in OthersEstablished(u, d) ensures x in OthersEstablished(t, d) {
    }
  }

  lemma UpdateNear(t: Table, rid: Route, v: Fields, p: Pair, h: Hello)
    requires Has(t, rid) && v.deviceID == At(t, rid).deviceID && h.Hello3?
    ensures var u := Update(t, rid, v, t.keys[p.c2s := h.c2s][p.s2c := h.s2c]);
      Near(t, u, v.deviceID) && u.keys.Keys == t.keys.Keys + {p.c2s, p.s2c}
  {
    var u := Update(t, rid, v, t.keys[p.c2s := h.c2s][p.s2c := h.s2c]);
    forall x | x in OthersEstablished(u, v.deviceID) ensures x in OthersEstablished(t, v.deviceID) {
    }
  }

  lemma IndexNear(t: Table, u: Table, d: DeviceId)
    requires u == t.(byDevice := u.byDevice)
    ensures Near(t, u, d)
  {
    forall x | x in OthersEstablished(u, d) ensures x in OthersEstablished(t, d) {
    }
  }

  lemma NearChains(t: Table, m: Table, u: Table, d: DeviceId)
    requires Near(t, m, d) && Near(m, u, d)
    ensures Near(t, u, d)
  {
  }

  lemma InstallNear(t: Table, rid: Route, h: Hello, p: Pair)
    requires Has(t, rid) && h.Hello3?
    ensures var u := Install(t, rid, h, p);
      Near(t, u, At(t, rid).deviceID) && u.keys.Keys == t.keys.Keys + {p.c2s, p.s2c}
  {
    hide Near;
    var v := At(t, rid);
    UpdateNear(t, rid, v.(c2s := p.c2s, s2c := p.s2c, state := Established), p, h);
    IndexNear(WithKeys(t, rid, h, p, Established), Install(t, rid, h, p), v.deviceID);
    NearChains(t, WithKeys(t, rid, h, p, Established), Install(t, rid, h, p), v.deviceID);
  }

  lemma UnsavedNear(t: Table, rid: Route, h: Hello, p: Pair)
    requires Has(t, rid) && h.Hello3?
    ensures var u := Unsaved(t, rid, h, p);
      Near(t, u, At(t, rid).deviceID) && u.keys.Keys == t.keys.Keys + {p.c2s, p.s2c}
  {
    hide Near;
    var v := At(t, rid);
    UpdateNear(t, rid, v.(c2s := null, s2c := null, state := Hello2), p, h);
    IndexNear(Reverted(t, rid, h, p), Unsaved(t, rid, h, p), v.deviceID);
    NearChains(t, Reverted(t, rid, h, p), Unsaved(t, rid, h, p), v.deviceID);
  }

  lemma SaveNear(t: Table, rid: Route, h: Hello, p: Pair)
    requires Has(t, rid) && h.Hello3? && ReachesSave(t, rid, h) && h.sent
    ensures var u := FinishHello3(t, rid, h, p);
      Near(t, u, At(t, rid).deviceID) && u.keys.Keys == t.keys.Keys + {p.c2s, p.s2c}
  {
    SaveFacts(t, rid, h);
    hide Near, ReachesSave, Verified, CapReached, Close, Update;
    var v := At(t, rid);
    if h.saved {
      InstallNear(t, rid, h, p);
      if v.deviceID in t.byDevice && t.byDevice[v.deviceID] != rid {
        CloseNear(Install(t, rid, h, p), t.byDevice[v.deviceID], v.deviceID);
        NearChains(t, Install(t, rid, h, p), FinishHello3(t, rid, h, p), v.deviceID);
      }
    } else {
      UnsavedNear(t, rid, h, p);
      CloseNear(Unsaved(t, rid, h, p), rid, v.deviceID);
      NearChains(t, Unsaved(t, rid, h, p), FinishHello3(t, rid, h, p), v.deviceID);
    }
  }

  lemma LoginFrame(t: Table, s: Sess, rid: Route, d: DeviceId, p: Pair, saved: bool)
    requires Lone(t, d) && New(t, s, rid, p)
    ensures var u := Run(t, Login(s, rid, d, p, saved));
      && Lone(u, d) && u.objs.Keys == t.objs.Keys + {s} && u.keys.Keys == t.keys.Keys + {p.c2s, p.s2c}
      && u.sessions.Keys <= t.sessions.Keys + {rid}
  {
    hide Run, Core, ReachesSave, FreshPair, FinishHello3, OthersEstablished;
    var w, h := Waiting(t, s, rid, d), Third(saved);
    LoginRuns(t, s, rid, d, p, saved);
    LoginReaches(t, s, rid, d, p, saved);
    WaitingNone(t, s, rid, d);
    FinishKeeps(w, rid, h, p);
    SaveNear(w, rid, h, p);
  }

  lemma WaitingNone(t: Table, s: Sess, rid: Route, d: DeviceId)
    requires s !in t.objs && OthersEstablished(t, d) == {}
    ensures OthersEstablished(Waiting(t, s, rid, d), d) == {}
  {
    forall r | r in OthersEstablished(Waiting(t, s, rid, d), d) ensures r in OthersEstablished(t, d) {
    }
  }

  lemma LoginBeside(t: Table, s: Sess, rid: Route, d: DeviceId, p: Pair, orphan: Route)
    requires Lone(t, d) && New(t, s, rid, p) && d !in t.byDevice && EstablishedAt(t, d, orphan)
    ensures var u := Run(t, Login(s, rid, d, p, true)); EstablishedAt(u, d, orphan) && EstablishedAt(u, d, rid)
  {
    hide Run, Core, ReachesSave, FreshPair, FinishHello3;
    LoginRuns(t, s, rid, d, p, true);
    LoginReaches(t, s, rid, d, p, true);
    OrphanIsNotKicked(Waiting(t, s, rid, d), rid, Third(true), p, orphan);
  }

  lemma UnusedIs(d: DeviceId)
    ensures Lone(Unused(d), d) && Indexed(Unused(d))
  {
  }

  // Three sessions and six key objects, no two the same.
  ghost predicate Tokens(s: seq<Sess>, p: seq<Pair>) {
    && |s| == 3 && s[0] != s[1] && s[1] != s[2] && s[0] != s[2]
    && |p| == 3 && p[0].c2s != p[0].s2c && p[1].c2s != p[1].s2c && p[2].c2s != p[2].s2c
    && Disjoint(p[0], p[1]) && Disjoint(p[1], p[2]) && Disjoint(p[0], p[2])
  }

  ghost predicate Disjoint(p: Pair, q: Pair) {
    p.c2s != q.c2s && p.c2s != q.s2c && p.s2c != q.c2s && p.s2c != q.s2c
  }

  lemma {:induction false} RunAppends(t: Table, a: seq<Event>, b: seq<Event>)
    ensures Run(t, a + b) == Run(Run(t, a), b)
    decreases |a|
  {
    hide Step;
    if a == [] {
      assert a + b == b;
    } else {
      assert (a + b)[1..] == a[1..] + b;
      RunAppends(Step(t, a[0]), a[1..], b);
    }
  }

  lemma LoseThenBeside(t: Table, s: seq<Sess>, d: DeviceId, p: seq<Pair>)
    requires Tokens(s, p) && Lone(t, d) && d in t.byDevice && t.byDevice[d] == 1
    requires t.objs.Keys == {s[0]} && t.keys.Keys == {p[0].c2s, p[0].s2c} && t.sessions.Keys <= {1}
    ensures var u := Run(Run(t, Login(s[1], 2, d, p[1], false)), Login(s[2], 3, d, p[2], true));
      Core(u) && EstablishedAt(u, d, 1) && EstablishedAt(u, d, 3)
  {
    hide Run, Core, OthersEstablished, Login, EstablishedAt;
    LoginFrame(t, s[1], 2, d, p[1], false);
    LoginLoses(t, s[1], 2, d, p[1]);
    var u := Run(t, Login(s[1], 2, d, p[1], false));
    LoginFrame(u, s[2], 3, d, p[2], true);
    LoginBeside(u, s[2], 3, d, p[2], 1);
  }

  // A login, one whose save fails, and a third: the device then has two sessions.
  lemma TwoSessions(d: DeviceId, s: seq<Sess>, p: seq<Pair>)
    requires Tokens(s, p)
    ensures var events :=
        Login(s[0], 1, d, p[0], true) + Login(s[1], 2, d, p[1], false) + Login(s[2], 3, d, p[2], true);
      var u := Run(Unused(d), events); Core(u) && EstablishedAt(u, d, 1) && EstablishedAt(u, d, 3)
  {
    hide Run, Core, OthersEstablished, Login, EstablishedAt;
    var t := Unused(d);
    var a, b, c := Login(s[0], 1, d, p[0], true), Login(s[1], 2, d, p[1], false), Login(s[2], 3, d, p[2], true);
    UnusedIs(d);
    LoginFrame(t, s[0], 1, d, p[0], true);
    LoginEstablishes(t, s[0], 1, d, p[0]);
    LoseThenBeside(Run(t, a), s, d, p);
    RunAppends(t, a, b);
    RunAppends(t, a + b, c);
  }

  lemma Rebound(t: Table, s: Sess, rid: Route, d: DeviceId)
    requires s !in t.objs && EstablishedAt(t, d, rid) && d in t.byDevice && t.byDevice[d] == rid
    ensures var u := Bound(t, s, rid, 0);
        !Core(u) && d in u.byDevice && u.byDevice[d] == rid && !EstablishedAt(u, d, rid)
  {
    hide Erase, Owned, Candidates, Keyed;
  }

  // A login, then the relay announcing its route again: the index points at no session.
  lemma StaleEntry(d: DeviceId, s: seq<Sess>, p: seq<Pair>)
    requires Tokens(s, p)
    ensures var u := Run(Unused(d), Login(s[0], 1, d, p[0], true) + [EvBound(s[1], 1, 0)]);
      !Core(u) && d in u.byDevice && u.byDevice[d] == 1 && !EstablishedAt(u, d, 1)
  {
    hide Core, OthersEstablished, Login, Bound, EstablishedAt;
    var t := Unused(d);
    UnusedIs(d);
    LoginFrame(t, s[0], 1, d, p[0], true);
    LoginEstablishes(t, s[0], 1, d, p[0]);
    RunAppends(t, Login(s[0], 1, d, p[0], true), [EvBound(s[1], 1, 0)]);
    Rebound(Run(t, Login(s[0], 1, d, p[0], true)), s[1], 1, d);
  }

  // A refused third hello leaves keys that are not zeros and that nobody holds.
  lemma RefusalLeaves(t: Table, rid: Route, p: Pair, saved: bool)
    requires Core(t) && Keyless(t) && Has(t, rid) && FreshPair(t, p) && Refused(t, rid, Third(saved))
    ensures !Spotless(FinishHello3(t, rid, Third(saved), p))
  {
    hide Core, Keyless, FinishHello3, Refused, FreshPair, Settled;
    FinishExactly(t, rid, Third(saved), p);
    assert Third(saved).c2s[0] == 1;
  }

  // A login whose save fails, in an empty table: its keys are left as they were agreed.
  lemma KeysLeftBehind(d: DeviceId, s: Sess, p: Pair)
    requires p.c2s != p.s2c
    ensures !Spotless(Run(Unused(d), Login(s, 1, d, p, false)))
  {
    hide Run, Core, OthersEstablished, Login, ReachesSave, FinishHello3, Spotless, Verified, CapReached;
    var t := Unused(d);
    UnusedIs(d);
    LoginRuns(t, s, 1, d, p, false);
    LoginReaches(t, s, 1, d, p, false);
    SaveFacts(Waiting(t, s, 1, d), 1, Third(false));
    RefusalLeaves(Waiting(t, s, 1, d), 1, p, false);
  }

  // What a first login leaves at its route.
  lemma LoginLeaves(t: Table, s: Sess, rid: Route, d: DeviceId, p: Pair)
    requires Lone(t, d) && New(t, s, rid, p) && Keyless(t) && d !in t.byDevice
    ensures var u := Run(t, Login(s, rid, d, p, true));
      Keyless(u) && LiveAs(u, s, Relay) && u.objs[s].routeID == rid && u.objs[s].deviceID == d
  {
    hide Run, Core, ReachesSave, FreshPair, Verified, CapReached, OthersEstablished;
    var w, h := Waiting(t, s, rid, d), Third(true);
    LoginRuns(t, s, rid, d, p, true);
    LoginReaches(t, s, rid, d, p, true);
    SaveFacts(w, rid, h);
    FinishExactly(w, rid, h, p);
    KindIsKeyless(w, FinishHello3(w, rid, h, p));
  }

  // A candidate that has said its first hello, and whose parent is closed before its third.
  ghost function Orphaned(t: Table, parent: Sess, s: Sess, d: DeviceId, p: Pair): Table {
    Close(Forward(Offer(t, parent, s, 2, 0, "", true), 2, true, First(d), p), 1)
  }

  lemma OrphanedIs(t: Table, parent: Sess, s: Sess, d: DeviceId, p: Pair)
    requires Core(t) && Keyless(t) && LiveAs(t, parent, Relay)
    requires t.objs[parent].routeID == 1 && t.objs[parent].deviceID == d
    requires s !in t.objs && 2 !in t.sessions && d in t.revoked && !t.revoked[d] && FreshPair(t, p)
    ensures var u := Orphaned(t, parent, s, d, p);
      && Core(u) && Keyless(u) && FreshPair(u, p) && Has(u, 2) && !At(u, 2).epochFailed && Refused(u, 2, Third(true))
      && At(u, 2).state == Hello2
  {
    hide Core, Keyless, Offer, Close, Kind, Kept;
    OfferMakesCandidate(t, parent, s, 2, 0, "");
    OfferKeeps(t, parent, s, 2, 0, "", true);
    OfferStill(t, parent, s, 2, 0, "", true);
    var o := Offer(t, parent, s, 2, 0, "", true);
    KeptIsCore(t, o);
    KindIsKeyless(t, o);
    FirstAnswered(o, 2, d, p);
    var a := Forward(o, 2, true, First(d), p);
    CloseKeeps(a, 1);
    CloseLeaves(a, 1, 1);
    CloseLeaves(a, 1, 2);
    CloseKind(a, 1);
    KindIsKeyless(a, Close(a, 1));
    CloseRevoked(a, 1);
  }

  lemma CloseRevoked(t: Table, rid: Route)
    ensures Close(t, rid).revoked == t.revoked
  {
  }

  lemma FirstAnswered(t: Table, rid: Route, d: DeviceId, p: Pair)
    requires Core(t) && Keyless(t) && Has(t, rid) && At(t, rid).state == ResumeHello && !At(t, rid).epochFailed
    requires d in t.revoked && !t.revoked[d]
    ensures var u := Forward(t, rid, true, First(d), p);
      && Core(u) && Keyless(u) && u.sessions == t.sessions && u.keys == t.keys && u.revoked == t.revoked && Has(u, rid)
      && At(u, rid) == At(t, rid).(deviceID := d, nonce := Nonce(), ephSk := [], state := Hello2)
  {
    hide Core, Keyless, Kind, Close, Kept;
    Hello1Keeps(t, rid, First(d));
    KeptIsCore(t, AnswerHello1(t, rid, First(d)));
    Hello1Still(t, rid, First(d));
    KindIsKeyless(t, AnswerHello1(t, rid, First(d)));
  }

  lemma KeylessUnused(d: DeviceId)
    ensures Keyless(Unused(d))
  {
  }

  lemma ForwardFinishes(t: Table, rid: Route, h: Hello, p: Pair)
    requires Has(t, rid) && !At(t, rid).epochFailed && At(t, rid).state == Hello2 && h.Hello3?
    ensures Forward(t, rid, true, h, p) == FinishHello3(t, rid, h, p)
  {
    hide FinishHello3;
  }

  lemma RunFour(t: Table, events: seq<Event>)
    requires |events| == 4
    ensures Run(t, events) == Step(Step(Step(Step(t, events[0]), events[1]), events[2]), events[3])
  {
    hide Step;
    RunThree(Step(t, events[0]), events[1..]);
  }

  // An offer, the candidate's first hello, the parent's end, the candidate's third hello.
  function Abandon(parent: Sess, s: Sess, d: DeviceId, p: Pair): seq<Event> {
    [EvOffer(parent, s, 2, 0, "", true), EvForward(2, true, First(d), p),
     EvError(1), EvForward(2, true, Third(true), p)]
  }

  lemma AbandonLeaves(t: Table, parent: Sess, s: Sess, d: DeviceId, p: Pair)
    requires Core(t) && Keyless(t) && LiveAs(t, parent, Relay)
    requires t.objs[parent].routeID == 1 && t.objs[parent].deviceID == d
    requires s !in t.objs && 2 !in t.sessions && d in t.revoked && !t.revoked[d] && FreshPair(t, p)
    ensures !Spotless(Run(t, Abandon(parent, s, d, p)))
  {
    hide Core, Keyless, Run, Offer, Forward, Close, FinishHello3, Spotless, Refused, LiveAs, FreshPair;
    OrphanedIs(t, parent, s, d, p);
    RunFour(t, Abandon(parent, s, d, p));
    var o := Orphaned(t, parent, s, d, p);
    RefusalLeaves(o, 2, p, true);
    ForwardFinishes(o, 2, Third(true), p);
  }

  // No save has failed, and the candidate's keys are left as they were agreed.
  lemma CandidateKeysLeftBehind(d: DeviceId, s: seq<Sess>, p: seq<Pair>)
    requires Tokens(s, p)
    ensures !Spotless(Run(Unused(d), Login(s[0], 1, d, p[0], true) + Abandon(s[0], s[1], d, p[1])))
  {
    hide Core, Keyless, OthersEstablished, Login, Abandon, Run, Spotless;
    var t, login := Unused(d), Login(s[0], 1, d, p[0], true);
    UnusedIs(d);
    KeylessUnused(d);
    LoginFrame(t, s[0], 1, d, p[0], true);
    LoginLeaves(t, s[0], 1, d, p[0]);
    RunAppends(t, login, Abandon(s[0], s[1], d, p[1]));
    AbandonLeaves(Run(t, login), s[0], s[1], d, p[1]);
  }
}
