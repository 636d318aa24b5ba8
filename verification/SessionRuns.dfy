/**
  The P2P offer, the commit that moves a live session onto its candidate's route, link and
  keys, the timers and callbacks that arrive late, and every run of all of these.
 */
module SessionRuns {
  import opened Basics
  import opened SessionTable
  import opened SessionSteps

  // ---------------------------------------------------------------- SESSION_BOUND

  // The relay announces a route. Whatever sat there is closed and wiped, but its index
  // entry is left alone.
  ghost function Bound(t: Table, s: Sess, rid: Route, conn: Link): Table {
    var m := if Has(t, rid) then Retire(t, rid, false, false) else t;
    Spawn(m, s, NewFields(rid, "", Some(conn), Relay, 0, ""))
  }

  lemma BoundKeeps(t: Table, s: Sess, rid: Route, conn: Link)
    requires Core(t) && s !in t.objs && rid != 0
    requires Has(t, rid) ==> At(t, rid).state != Established
    ensures Kept(t, Bound(t, s, rid, conn))
  {
    if Has(t, rid) {
      forall d | d in t.byDevice ensures t.byDevice[d] != rid {
        assert EstablishedAt(t, d, t.byDevice[d]);
      }
      RetireKeeps(t, rid, false, false);
      var m := Retire(t, rid, false, false);
      RetireIndexed(t, rid);
      hide Core, Progress, Indexed, Retire, Spawn;
      SpawnKeeps(m, s, NewFields(rid, "", Some(conn), Relay, 0, ""));
      ProgressChains(t, m, Bound(t, s, rid, conn));
    } else {
      hide Owned, Progress, Indexed, Candidates, Sound;
      SpawnKeeps(t, s, NewFields(rid, "", Some(conn), Relay, 0, ""));
    }
  }

  lemma RetireIndexed(t: Table, rid: Route)
    requires Core(t) && Has(t, rid) && At(t, rid).state != Established
    ensures rid !in Retire(t, rid, false, false).sessions && Retire(t, rid, false, false).objs.Keys == t.objs.Keys
    ensures Indexed(t) ==> Indexed(Retire(t, rid, false, false))
  {
    hide Owned, Candidates, Sound, Erase;
    var u := Retire(t, rid, false, false);
    if Indexed(t) {
      forall r, d | EstablishedAt(u, d, r) ensures d in u.byDevice && u.byDevice[d] == r {
        assert EstablishedAt(t, d, r);
      }
    }
  }

  // Exactly when SESSION_BOUND leaves a stale index entry: it lands on an established route.
  lemma BoundExact(t: Table, s: Sess, rid: Route, conn: Link)
    requires Core(t) && Indexed(t) && s !in t.objs && rid != 0
    ensures Core(Bound(t, s, rid, conn)) <==> (Has(t, rid) ==> At(t, rid).state != Established)
  {
    if Has(t, rid) && At(t, rid).state == Established {
      hide Owned, Candidates, Erase;
      var d := At(t, rid).deviceID;
      assert EstablishedAt(t, d, rid);
      assert !EstablishedAt(Bound(t, s, rid, conn), d, rid);
    } else {
      BoundKeeps(t, s, rid, conn);
    }
  }

  // ---------------------------------------------------------------- offer and expiry

  ghost predicate LiveAs(t: Table, s: Sess, transport: Transport) {
    && s in t.objs && Has(t, t.objs[s].routeID) && t.sessions[t.objs[s].routeID] == s
    && t.objs[s].state == Established && t.objs[s].transport == transport
  }

  // A send failure poisons the session's epoch at once; FailEpoch cleans up later.
  ghost function Poison(t: Table, s: Sess): Table {
    if s in t.objs then t.(objs := t.objs[s := t.objs[s].(epochFailed := true)]) else t
  }

  ghost function Expire(t: Table, route: Route, s: Sess): Table {
    if Has(t, route) && t.sessions[route] == s && At(t, route).state != Established
    then Retire(t, route, false, true)
    else t
  }

  ghost predicate HasCandidate(t: Table, r: Route, parent: Route) {
    Has(t, r) && At(t, r).upgradeFrom == parent
  }

  ghost function DropCandidate(t: Table, parent: Route): Table {
    if exists r :: HasCandidate(t, r, parent) then
      var r :| HasCandidate(t, r, parent);
      Retire(t, r, false, true)
    else t
  }

  ghost function Offer(t: Table, parent: Sess, s: Sess, route: Route, link: Link, attempt: string,
                       replied: bool): Table
  {
    if !LiveAs(t, parent, Relay) then t
    else
      var p := t.objs[parent];
      var v := NewFields(route, p.deviceID, Some(link), P2P, p.routeID, attempt);
      var m := Spawn(DropCandidate(t, p.routeID), s, v);
      if replied then m else Expire(Poison(m, parent), route, s)
  }

  lemma ExpireKeeps(t: Table, route: Route, s: Sess)
    requires Core(t)
    ensures Kept(t, Expire(t, route, s))
  {
    if Has(t, route) && t.sessions[route] == s && At(t, route).state != Established {
      RetireUnestablished(t, route);
    } else {
      ProgressChains(t, t, t);
    }
  }

  lemma RetireUnestablished(t: Table, r: Route)
    requires Core(t) && Has(t, r) && At(t, r).state != Established
    ensures Kept(t, Retire(t, r, false, true))
  {
    assert forall d :: d in t.byDevice ==> t.byDevice[d] != r by {
      forall d | d in t.byDevice ensures t.byDevice[d] != r {
        assert EstablishedAt(t, d, t.byDevice[d]);
      }
    }
    RetireIndexed(t, r);
    var u := Retire(t, r, false, false);
    RetireKeeps(t, r, false, true);
    if Indexed(t) {
      hide Core, Progress;
      LinksFrame(u, Retire(t, r, false, true));
    }
  }

  lemma LinksFrame(t: Table, u: Table)
    requires Indexed(t) && u.sessions == t.sessions && u.objs == t.objs && u.byDevice == t.byDevice
    ensures Indexed(u)
  {
    forall r, d | EstablishedAt(u, d, r) ensures EstablishedAt(t, d, r) {
    }
  }

  lemma PoisonKeeps(t: Table, s: Sess)
    requires Core(t)
    ensures Kept(t, Poison(t, s))
  {
    if s in t.objs {
      if Live(t, s) {
        var r := t.objs[s].routeID;
        assert Has(t, r);
        var w := At(t, r).(epochFailed := true);
        hide Sound, Indexed;
        UpdateKeeps(t, r, w, t.keys);
        assert Poison(t, s) == Update(t, r, w, t.keys);
      } else {
        ClosedFrame(t, s, t.objs[s].(epochFailed := true), t.closedLinks);
      }
    } else {
      ProgressChains(t, t, t);
    }
  }

  // A session that already left the table can be touched freely as long as it stays empty.
  lemma ClosedFrame(t: Table, s: Sess, w: Fields, links: set<Link>)
    requires Core(t) && s in t.objs && !Live(t, s) && Emptied(w)
    requires w.routeID == t.objs[s].routeID && w.deviceID == t.objs[s].deviceID
    ensures Kept(t, t.(objs := t.objs[s := w], closedLinks := links))
  {
    hide Sound, Indexed, Owned, Candidates;
    var u := t.(objs := t.objs[s := w], closedLinks := links);
    ClosedFrameIndex(t, s, w, links);
    ClosedFrameShape(t, s, w, links);
  }

  lemma ClosedFrameShape(t: Table, s: Sess, w: Fields, links: set<Link>)
    requires Core(t) && s in t.objs && !Live(t, s) && Emptied(w)
    ensures Owned(t.(objs := t.objs[s := w], closedLinks := links))
    ensures Candidates(t.(objs := t.objs[s := w], closedLinks := links))
  {
    hide Sound;
    var u := t.(objs := t.objs[s := w], closedLinks := links);
    assert Owned(u);
    forall r, r' | r in u.sessions && r' in u.sessions && r != r' ensures !SameParent(u, r, r') {
      hide Owned;
      assert !SameParent(t, r, r');
    }
  }

  lemma ClosedFrameIndex(t: Table, s: Sess, w: Fields, links: set<Link>)
    requires Core(t) && s in t.objs && !Live(t, s) && Emptied(w)
    ensures Sound(t.(objs := t.objs[s := w], closedLinks := links))
    ensures Indexed(t) ==> Indexed(t.(objs := t.objs[s := w], closedLinks := links))
  {
    hide Owned, Candidates;
    var u := t.(objs := t.objs[s := w], closedLinks := links);
    forall d | d in u.byDevice ensures EstablishedAt(u, d, u.byDevice[d]) {
      assert EstablishedAt(t, d, t.byDevice[d]);
    }
    forall r, d | EstablishedAt(u, d, r) ensures EstablishedAt(t, d, r) {
    }
  }

  // After dropping it, no live session claims this parent any more.
  lemma DropCandidateKeeps(t: Table, parent: Route)
    requires Core(t) && parent != 0
    ensures Kept(t, DropCandidate(t, parent))
    ensures forall r :: Has(DropCandidate(t, parent), r) ==>
        Has(t, r) && At(DropCandidate(t, parent), r).upgradeFrom != parent
    ensures DropCandidate(t, parent).objs.Keys == t.objs.Keys
    ensures forall r :: Has(t, r) && At(t, r).upgradeFrom != parent ==>
              Has(DropCandidate(t, parent), r) && At(DropCandidate(t, parent), r) == At(t, r)
              && DropCandidate(t, parent).sessions[r] == t.sessions[r]
  {
    if exists r :: HasCandidate(t, r, parent) {
      var c :| HasCandidate(t, c, parent) && DropCandidate(t, parent) == Retire(t, c, false, true);
      RetireUnestablished(t, c);
      DropUnique(t, c, parent);
    } else {
      ProgressChains(t, t, t);
      forall r | Has(t, r) ensures At(t, r).upgradeFrom != parent {
        assert !HasCandidate(t, r, parent);
      }
    }
  }

  lemma DropUnique(t: Table, c: Route, parent: Route)
    requires Core(t) && parent != 0 && HasCandidate(t, c, parent)
    ensures var u := Retire(t, c, false, true);
            && u.objs.Keys == t.objs.Keys
            && (forall r :: Has(u, r) ==> Has(t, r) && At(u, r).upgradeFrom != parent)
            && (forall r :: Has(t, r) && At(t, r).upgradeFrom != parent ==>
                  Has(u, r) && At(u, r) == At(t, r) && u.sessions[r] == t.sessions[r])
  {
    hide Owned, Sound, Erase;
    var u := Retire(t, c, false, true);
    forall r | Has(u, r) ensures Has(t, r) && At(u, r).upgradeFrom != parent {
      assert !SameParent(t, c, r);
    }
  }

  lemma OfferKeeps(t: Table, parent: Sess, s: Sess, route: Route, link: Link, attempt: string, replied: bool)
    requires Core(t) && s !in t.objs && route !in t.sessions && route != 0
    ensures Kept(t, Offer(t, parent, s, route, link, attempt, replied))
  {
    if LiveAs(t, parent, Relay) {
      var p := t.objs[parent];
      assert p.routeID != 0;
      var v := NewFields(route, p.deviceID, Some(link), P2P, p.routeID, attempt);
      DropCandidateKeeps(t, p.routeID);
      var d := DropCandidate(t, p.routeID);
      assert route !in d.sessions by {
        assert Core(d);
        assert route in d.sessions ==> Has(d, route);
      }
      hide Core, Progress, Indexed, DropCandidate, Spawn;
      SpawnKeeps(d, s, v);
      var m := Spawn(d, s, v);
      ProgressChains(t, d, m);
      if !replied {
        PoisonKeeps(m, parent);
        ExpireKeeps(Poison(m, parent), route, s);
        ProgressChains(t, m, Poison(m, parent));
        ProgressChains(t, Poison(m, parent), Expire(Poison(m, parent), route, s));
      }
    } else {
      ProgressChains(t, t, t);
    }
  }

  // ---------------------------------------------------------------- commit

  ghost predicate CommitReady(t: Table, parent: Sess, route: Route, attempt: string) {
    && LiveAs(t, parent, Relay) && Has(t, route)
    && var p := t.objs[parent];
    var c := At(t, route);
    && !p.epochFailed && !c.epochFailed && c.state == UpgradeReady
    && c.upgradeFrom == p.routeID && c.deviceID == p.deviceID && c.attemptID == attempt
    && c.link.Some? && p.s2c != null
  }

  ghost function Moved(p: Fields, c: Fields): Fields {
    p.(routeID := c.routeID, link := c.link, transport := P2P, c2s := c.c2s, s2c := c.s2c,
       nonce := [], ephSk := Zeros(p.ephSk), upgradeFrom := 0, attemptID := "")
  }

  ghost function Spent(c: Fields): Fields {
    c.(c2s := null, s2c := null, link := None, state := Closed, nonce := [], ephSk := Zeros(c.ephSk))
  }

  // The reply goes out over the relay; then the same session object continues on the
  // candidate's route, link and key epoch, and both are wiped of what they held before.
  ghost function Commit(t: Table, parent: Sess, route: Route, attempt: string, sent: bool): Table {
    if !CommitReady(t, parent, route, attempt) then t
    else if !sent then Poison(t, parent)
    else
      var p, c := t.objs[parent], At(t, route);
      t.(sessions := (t.sessions - {p.routeID, route})[route := parent],
         byDevice := t.byDevice[p.deviceID := route],
         objs := t.objs[parent := Moved(p, c)][t.sessions[route] := Spent(c)],
         keys := Erase(t.keys, p.c2s, p.s2c))
  }

  // What a successful commit does, told from the outside: one session object goes on with
  // its device and its terminal, at the candidate's route, over its link, under its still
  // intact keys; its old keys are zeroed, its old route is gone, and the candidate is left
  // closed with nothing to wipe or hang up.
  lemma CommitMoves(t: Table, parent: Sess, route: Route, attempt: string)
    requires Core(t) && CommitReady(t, parent, route, attempt)
    ensures var u := Commit(t, parent, route, attempt, true);
            var p, c, candidate := t.objs[parent], At(t, route), t.sessions[route];
            && u.sessions.Keys == t.sessions.Keys - {p.routeID} && u.sessions[route] == parent
            && (forall r :: r in u.sessions && r != route ==>
                 u.sessions[r] == t.sessions[r] && At(t, r) == u.objs[u.sessions[r]])
            && u.objs[parent].deviceID == p.deviceID == c.deviceID && u.objs[parent].terminal == p.terminal
            && u.objs[parent].state == Established && u.objs[parent].link == c.link
            && u.objs[parent].c2s == c.c2s && u.objs[parent].s2c == c.s2c
            && c.c2s in u.keys && c.s2c in u.keys
            && u.keys[c.c2s] == t.keys[c.c2s] && u.keys[c.s2c] == t.keys[c.s2c]
            && p.c2s in u.keys && p.s2c in u.keys
            && u.keys[p.c2s] == Zeros(t.keys[p.c2s]) && u.keys[p.s2c] == Zeros(t.keys[p.s2c])
            && candidate != parent && Emptied(u.objs[candidate]) && u.objs[candidate].link == None
            && u.closedLinks == t.closedLinks && u.byDevice == t.byDevice[p.deviceID := route]
            && u.objs.Keys == t.objs.Keys
            && (forall s :: s in t.objs && s != parent && s != candidate ==> u.objs[s] == t.objs[s])
  {
    hide Core, Commit, CommitReady;
    CommitRoutes(t, parent, route, attempt);
    CommitKeyBytes(t, parent, route, attempt);
    CommitOthers(t, parent, route, attempt);
  }

  lemma CommitFacts(t: Table, parent: Sess, route: Route, attempt: string)
    requires Core(t) && CommitReady(t, parent, route, attempt)
    ensures var p, c := t.objs[parent], At(t, route);
      && t.sessions[route] != parent && Has(t, p.routeID) && p.routeID != route
      && Apart(p, c) && HoldsKeys(t, p) && HoldsKeys(t, c) && p.c2s != null && c.c2s != null && c.s2c != null
  {
  }

  lemma CommitRoutes(t: Table, parent: Sess, route: Route, attempt: string)
    requires Core(t) && CommitReady(t, parent, route, attempt)
    ensures var u := Commit(t, parent, route, attempt, true);
      var p, c, candidate := t.objs[parent], At(t, route), t.sessions[route];
      && u.sessions.Keys == t.sessions.Keys - {p.routeID} && u.sessions[route] == parent
      && parent in u.objs && candidate in u.objs
      && u.objs[parent].deviceID == p.deviceID == c.deviceID && u.objs[parent].terminal == p.terminal
      && u.objs[parent].state == Established && u.objs[parent].link == c.link
      && u.objs[parent].c2s == c.c2s && u.objs[parent].s2c == c.s2c
      && candidate != parent && Emptied(u.objs[candidate]) && u.objs[candidate].link == None
      && u.closedLinks == t.closedLinks && u.byDevice == t.byDevice[p.deviceID := route]
  {
    CommitFacts(t, parent, route, attempt);
    hide Core, Erase;
  }

  lemma CommitKeyBytes(t: Table, parent: Sess, route: Route, attempt: string)
    requires Core(t) && CommitReady(t, parent, route, attempt)
    ensures var u := Commit(t, parent, route, attempt, true);
      var p, c := t.objs[parent], At(t, route);
      && c.c2s in u.keys && c.s2c in u.keys
      && u.keys[c.c2s] == t.keys[c.c2s] && u.keys[c.s2c] == t.keys[c.s2c]
      && p.c2s in u.keys && p.s2c in u.keys
      && u.keys[p.c2s] == Zeros(t.keys[p.c2s]) && u.keys[p.s2c] == Zeros(t.keys[p.s2c])
  {
    CommitFacts(t, parent, route, attempt);
    hide Core;
  }

  lemma CommitOthers(t: Table, parent: Sess, route: Route, attempt: string)
    requires Core(t) && CommitReady(t, parent, route, attempt)
    ensures var u, candidate := Commit(t, parent, route, attempt, true), t.sessions[route];
      && u.objs.Keys == t.objs.Keys
      && (forall r :: r in u.sessions && r != route ==>
            r in t.sessions && u.sessions[r] == t.sessions[r] && Has(t, r) && At(t, r) == u.objs[u.sessions[r]])
      && (forall s :: s in t.objs && s != parent && s != candidate ==> u.objs[s] == t.objs[s])
  {
    EntriesAreKnown(t);
    hide Core, Erase, Moved, Spent;
    var p, u := t.objs[parent], Commit(t, parent, route, attempt, true);
    assert u.objs == t.objs[parent := u.objs[parent]][t.sessions[route] := u.objs[t.sessions[route]]];
    forall r | r in u.sessions && r != route
      ensures r in t.sessions && u.sessions[r] == t.sessions[r] && Has(t, r) && At(t, r) == u.objs[u.sessions[r]]
    {
      assert t.objs[t.sessions[r]].routeID == r && r != p.routeID;
    }
  }

  lemma CommitOwned(t: Table, parent: Sess, route: Route, attempt: string)
    requires Core(t) && CommitReady(t, parent, route, attempt)
    ensures Owned(Commit(t, parent, route, attempt, true))
  {
    hide Sound, Candidates;
    var u := Commit(t, parent, route, attempt, true);
    var candidate := t.sessions[route];
    assert parent != candidate;
    assert Apart(t.objs[parent], t.objs[candidate]);
    forall s, s' | s in u.objs && s' in u.objs && s != s' ensures Apart(u.objs[s], u.objs[s']) {
      assert s == candidate || s' == candidate || s == parent || s' == parent || Apart(t.objs[s], t.objs[s']);
      assert s != candidate ==> Apart(t.objs[s], t.objs[candidate]) && Apart(t.objs[candidate], t.objs[s]);
      assert s' != candidate ==> Apart(t.objs[s'], t.objs[candidate]) && Apart(t.objs[candidate], t.objs[s']);
    }
  }

  lemma CommitKeyed(t: Table, parent: Sess, route: Route, attempt: string)
    requires Core(t) && CommitReady(t, parent, route, attempt)
    ensures Keyed(Commit(t, parent, route, attempt, true))
  {
    hide Sound, Candidates, Owned, Erase;
    var u := Commit(t, parent, route, attempt, true);
    forall s | s in u.objs && !Live(u, s) ensures Emptied(u.objs[s]) {
      hide Keyed, Commit, Live, Emptied;
      CommitEmptied(t, parent, route, attempt, s);
    }
  }

  lemma CommitProgress(t: Table, parent: Sess, route: Route, attempt: string)
    requires Core(t) && CommitReady(t, parent, route, attempt)
    ensures Progress(t, Commit(t, parent, route, attempt, true))
  {
    hide Sound, Candidates, Owned, Erase;
  }

  lemma CommitEmptied(t: Table, parent: Sess, route: Route, attempt: string, s: Sess)
    requires Core(t) && CommitReady(t, parent, route, attempt)
    requires s in Commit(t, parent, route, attempt, true).objs && !Live(Commit(t, parent, route, attempt, true), s)
    ensures Emptied(Commit(t, parent, route, attempt, true).objs[s])
  {
    hide Sound, Candidates, Owned, Erase;
    if s != parent && s != t.sessions[route] {
      assert !Live(t, s);
    }
  }

  lemma CommitCandidates(t: Table, parent: Sess, route: Route, attempt: string)
    requires Core(t) && CommitReady(t, parent, route, attempt)
    ensures Candidates(Commit(t, parent, route, attempt, true))
  {
    hide Sound, Owned, Erase;
    var u := Commit(t, parent, route, attempt, true);
    forall r, r' | r in u.sessions && r' in u.sessions && r != r' ensures !SameParent(u, r, r') {
      assert !SameParent(t, r, r');
    }
  }

  // Who is established after a commit: everyone else as before, and the parent at its new route.
  lemma CommitEstablished(t: Table, parent: Sess, route: Route, attempt: string, d: DeviceId, r: Route)
    requires Core(t) && CommitReady(t, parent, route, attempt)
    ensures EstablishedAt(Commit(t, parent, route, attempt, true), d, r) <==>
            if r == route then d == t.objs[parent].deviceID
            else r != t.objs[parent].routeID && EstablishedAt(t, d, r)
  {
    hide Sound, Candidates, Owned, Erase;
    assert r in t.sessions && r != t.objs[parent].routeID && r != route ==>
        t.sessions[r] != parent && t.sessions[r] != t.sessions[route];
  }

  lemma CommitIndex(t: Table, parent: Sess, route: Route, attempt: string)
    requires Core(t) && CommitReady(t, parent, route, attempt)
    ensures Sound(Commit(t, parent, route, attempt, true))
    ensures Indexed(t) ==> Indexed(Commit(t, parent, route, attempt, true))
  {
    hide Keyed, Candidates, Owned, Erase;
    var u := Commit(t, parent, route, attempt, true);
    var p := t.objs[parent];
    assert u.byDevice == t.byDevice[p.deviceID := route] && EstablishedAt(t, p.deviceID, p.routeID);
    assert t.objs[t.sessions[route]].state != Established;
    hide Commit;
    forall d | d in u.byDevice ensures EstablishedAt(u, d, u.byDevice[d]) {
      CommitEstablished(t, parent, route, attempt, d, u.byDevice[d]);
    }
    if Indexed(t) {
      assert u.byDevice.Keys == t.byDevice.Keys;
      forall r, d | EstablishedAt(u, d, r) ensures d in u.byDevice && u.byDevice[d] == r {
        CommitEstablished(t, parent, route, attempt, d, r);
      }
    }
  }

  lemma CommitKeeps(t: Table, parent: Sess, route: Route, attempt: string, sent: bool)
    requires Core(t)
    ensures Kept(t, Commit(t, parent, route, attempt, sent))
  {
    hide Keyed, Sound, Candidates, Owned, Indexed, Progress;
    if !CommitReady(t, parent, route, attempt) {
      ProgressChains(t, t, t);
    } else if !sent {
      PoisonKeeps(t, parent);
    } else {
      CommitOwned(t, parent, route, attempt);
      CommitKeyed(t, parent, route, attempt);
      CommitProgress(t, parent, route, attempt);
      CommitCandidates(t, parent, route, attempt);
      CommitIndex(t, parent, route, attempt);
    }
  }

  // ---------------------------------------------------------------- every run

  // failTransportEpoch acts on one exact session object, in the table or long gone.
  ghost function FailEpoch(t: Table, s: Sess): Table {
    if s !in t.objs then t
    else if Live(t, s) then Close(t, t.objs[s].routeID)
    else
      var v := t.objs[s];
      t.(objs := t.objs[s := Cleared(v, true)],
         closedLinks := if v.transport == P2P then HangUp(t.closedLinks, v.link) else t.closedLinks)
  }

  // Closing several routes one after the other, in the order a map iteration gave them.
  ghost function CloseAll(t: Table, routes: seq<Route>): Table
    decreases |routes|
  {
    if routes == [] then t else CloseAll(Close(t, routes[0]), routes[1..])
  }

  // A relay or direct FWD frame for a route.
  ghost function Forward(t: Table, rid: Route, opens: bool, h: Hello, p: Pair): Table {
    if !Has(t, rid) || At(t, rid).epochFailed then t
    else if At(t, rid).state == Established then
      if opens then t else Close(t, rid)
    else
      match h
      case Malformed => Close(t, rid)
      case Hello1(_, _, _, _, _) => AnswerHello1(t, rid, h)
      case Hello3(_, _, _, _, _) => FinishHello3(t, rid, h, p)
  }

  datatype Event =
    | EvBound(s: Sess, rid: Route, conn: Link)
    | EvForward(rid: Route, opens: bool, hello: Hello, pair: Pair)
    | EvDirect(rid: Route, conn: Link, opens: bool, hello: Hello, pair: Pair)
    | EvError(rid: Route)
    | EvOffer(parent: Sess, s: Sess, route: Route, link: Link, attempt: string, sent: bool)
    | EvCommit(parent: Sess, route: Route, attempt: string, sent: bool)
    | EvExpire(route: Route, s: Sess)
    | EvDirectClose(rid: Route, conn: Link)
    | EvFailEpoch(s: Sess)
    | EvReset(order: seq<Route>)
    | EvRevoke(device: DeviceId, order: seq<Route>)

  ghost function Step(t: Table, e: Event): Table {
    match e
    case EvBound(s, rid, conn) => Bound(t, s, rid, conn)
    case EvForward(rid, opens, h, p) => Forward(t, rid, opens, h, p)
    case EvDirect(rid, conn, opens, h, p) =>
      if Has(t, rid) && At(t, rid).link == Some(conn) then Forward(t, rid, opens, h, p) else t
    case EvError(rid) => Close(t, rid)
    case EvOffer(parent, s, route, link, attempt, sent) => Offer(t, parent, s, route, link, attempt, sent)
    case EvCommit(parent, route, attempt, sent) => Commit(t, parent, route, attempt, sent)
    case EvExpire(route, s) => Expire(t, route, s)
    case EvDirectClose(rid, conn) => if Has(t, rid) && At(t, rid).link == Some(conn) then Close(t, rid) else t
    case EvFailEpoch(s) => FailEpoch(t, s)
    case EvReset(order) => CloseAll(t, order)
    case EvRevoke(d, order) =>
      if d in t.revoked && !t.revoked[d] then CloseAll(t.(revoked := t.revoked[d := true]), order) else t
  }

  // What the environment owes: new objects are new, relay and direct routes are nonzero
  // and not in use.
  ghost predicate Fair(t: Table, e: Event) {
    match e
    case EvBound(s, rid, _) => s !in t.objs && rid !in t.sessions && rid != 0
    case EvForward(_, _, _, p) => FreshPair(t, p)
    case EvDirect(_, _, _, _, p) => FreshPair(t, p)
    case EvOffer(_, s, route, _, _, _) => s !in t.objs && route !in t.sessions && route != 0
    case _ => true
  }

  // A device save succeeds, if the step makes one.
  predicate Saves(e: Event) {
    match e
    case EvForward(_, _, h, _) => h.Hello3? ==> h.saved
    case EvDirect(_, _, _, h, _) => h.Hello3? ==> h.saved
    case _ => true
  }

  predicate AllSave(events: seq<Event>) { forall i :: 0 <= i < |events| ==> Saves(events[i]) }

  ghost function Run(t: Table, events: seq<Event>): Table
    decreases |events|
  {
    if events == [] then t else Run(Step(t, events[0]), events[1..])
  }

  ghost predicate FairRun(t: Table, events: seq<Event>)
    decreases |events|
  {
    events == [] || (Fair(t, events[0]) && FairRun(Step(t, events[0]), events[1..]))
  }

  lemma {:induction false} CloseAllKeeps(t: Table, routes: seq<Route>)
    requires Core(t)
    ensures Kept(t, CloseAll(t, routes))
    decreases |routes|
  {
    hide Core, Progress, Indexed, Close;
    if routes == [] {
      ProgressChains(t, t, t);
    } else {
      var m := Close(t, routes[0]);
      CloseKeeps(t, routes[0]);
      CloseAllKeeps(m, routes[1..]);
      ProgressChains(t, m, CloseAll(m, routes[1..]));
    }
  }

  lemma ForwardKeeps(t: Table, rid: Route, opens: bool, h: Hello, p: Pair)
    requires Core(t) && FreshPair(t, p)
    ensures Core(Forward(t, rid, opens, h, p)) && Progress(t, Forward(t, rid, opens, h, p))
    ensures Indexed(t) && (h.Hello3? ==> h.saved) ==> Indexed(Forward(t, rid, opens, h, p))
  {
    hide Core, Progress, Indexed, Close, AnswerHello1, FinishHello3;
    if Has(t, rid) && At(t, rid).state != Established && h.Hello1? {
      Hello1Keeps(t, rid, h);
    }
    if Has(t, rid) && At(t, rid).state != Established && h.Hello3? {
      FinishKeeps(t, rid, h, p);
    }
    CloseKeeps(t, rid);
    ProgressChains(t, t, t);
  }

  lemma FailEpochKeeps(t: Table, s: Sess)
    requires Core(t)
    ensures Kept(t, FailEpoch(t, s))
  {
    if s in t.objs && !Live(t, s) {
      var v := t.objs[s];
      ClosedFrame(t, s, Cleared(v, true), if v.transport == P2P then HangUp(t.closedLinks, v.link) else t.closedLinks);
    } else if s in t.objs {
      CloseKeeps(t, t.objs[s].routeID);
    } else {
      ProgressChains(t, t, t);
    }
  }

  lemma RevokeKeeps(t: Table, d: DeviceId)
    requires Core(t)
    ensures Kept(t, t.(revoked := t.revoked[d := true]))
  {
    var u := t.(revoked := t.revoked[d := true]);
    hide Owned, Keyed, Indexed, Progress;
    ReindexKeeps(t, t.byDevice);
    RevokeFrame(t.(byDevice := t.byDevice), u);
  }

  lemma RevokeFrame(t: Table, u: Table)
    requires Core(t) && u == t.(revoked := u.revoked)
    ensures Kept(t, u)
  {
    hide Owned;
    OwnedFrame(t, u);
    forall r, d | EstablishedAt(u, d, r) ensures EstablishedAt(t, d, r) {
    }
    forall d | d in u.byDevice ensures EstablishedAt(u, d, u.byDevice[d]) {
      assert EstablishedAt(t, d, t.byDevice[d]);
    }
    forall r, r' | r in u.sessions && r' in u.sessions && r != r' ensures !SameParent(u, r, r') {
      assert !SameParent(t, r, r');
    }
  }

  lemma StepKeeps(t: Table, e: Event)
    requires Core(t) && Fair(t, e)
    ensures Core(Step(t, e)) && Progress(t, Step(t, e)) && (Indexed(t) && Saves(e) ==> Indexed(Step(t, e)))
  {
    hide Core, Progress, Indexed, Close, Forward, CloseAll, Commit, Offer, Expire, FailEpoch, Bound;
    match e
    case EvBound(s, rid, conn) => BoundKeeps(t, s, rid, conn);
    case EvForward(rid, opens, h, p) => ForwardKeeps(t, rid, opens, h, p);
    case EvDirect(rid, conn, opens, h, p) =>
      ForwardKeeps(t, rid, opens, h, p);
      ProgressChains(t, t, t);
    case EvError(rid) => CloseKeeps(t, rid);
    case EvOffer(parent, s, route, link, attempt, sent) => OfferKeeps(t, parent, s, route, link, attempt, sent);
    case EvCommit(parent, route, attempt, sent) => CommitKeeps(t, parent, route, attempt, sent);
    case EvExpire(route, s) => ExpireKeeps(t, route, s);
    case EvDirectClose(rid, conn) =>
      CloseKeeps(t, rid);
      ProgressChains(t, t, t);
    case EvFailEpoch(s) => FailEpochKeeps(t, s);
    case EvReset(order) => CloseAllKeeps(t, order);
    case EvRevoke(d, order) =>
      RevokeKeeps(t, d);
      var m := t.(revoked := t.revoked[d := true]);
      CloseAllKeeps(m, order);
      ProgressChains(t, m, CloseAll(m, order));
      ProgressChains(t, t, t);
  }

  // Every reachable table is well keyed, owns its keys and has a sound index; the index is
  // complete if every device save on the way succeeded.
  lemma {:induction false} RunKeeps(t: Table, events: seq<Event>)
    requires Core(t) && FairRun(t, events)
    ensures Core(Run(t, events)) && Progress(t, Run(t, events))
    ensures Indexed(t) && AllSave(events) ==> Indexed(Run(t, events))
    decreases |events|
  {
    hide Core, Progress, Indexed, Step, Fair, Saves;
    if events == [] {
      ProgressChains(t, t, t);
    } else {
      StepKeeps(t, events[0]);
      RunKeeps(Step(t, events[0]), events[1..]);
      ProgressChains(t, Step(t, events[0]), Run(t, events));
    }
  }

  // In a fully indexed table the index is exact, each device has at most one established
  // session, and there are at most ten of them in all.
  lemma IndexIsExact(t: Table)
    requires Core(t) && Indexed(t)
    ensures forall d, r :: EstablishedAt(t, d, r) <==> d in t.byDevice && t.byDevice[d] == r
    ensures forall d, r, r' :: EstablishedAt(t, d, r) && EstablishedAt(t, d, r') ==> r == r'
    ensures |set r | r in t.sessions && At(t, r).state == Established| <= MAX_ESTABLISHED
  {
    hide Owned, Candidates;
    var established := set r | r in t.sessions && At(t, r).state == Established;
    var device := map r | r in established :: At(t, r).deviceID;
    forall r | r in established ensures device[r] in t.byDevice.Keys && t.byDevice[device[r]] == r {
      assert EstablishedAt(t, device[r], r);
    }
    Injection(established, device, t.byDevice.Keys);
  }

  // The candidate's timer after a commit: whatever happens in between, it finds its
  // candidate closed and out of the table, and changes nothing.
  lemma CommittedTimerIsDead(t: Table, parent: Sess, route: Route, attempt: string, events: seq<Event>)
    requires Core(t) && CommitReady(t, parent, route, attempt)
    requires FairRun(Commit(t, parent, route, attempt, true), events)
    ensures var u := Run(Commit(t, parent, route, attempt, true), events);
            Expire(u, route, t.sessions[route]) == u
  {
    var m := Commit(t, parent, route, attempt, true);
    CommitKeeps(t, parent, route, attempt, true);
    CommitMoves(t, parent, route, attempt);
    RunKeeps(m, events);
  }

  // A commit never crosses devices, even over a whole run: a session past its first hello
  // keeps its device for as long as it exists.
  lemma DeviceIsForever(t: Table, s: Sess, events: seq<Event>)
    requires Core(t) && FairRun(t, events)
    requires s in t.objs && t.objs[s].state != ResumeHello
    ensures s in Run(t, events).objs && Run(t, events).objs[s].deviceID == t.objs[s].deviceID
  {
    RunKeeps(t, events);
  }

  // What closing a list of routes leaves: the other routes, with the same objects and fields.
  lemma {:induction false} CloseAllLeaves(t: Table, routes: seq<Route>, r: Route)
    requires Core(t)
    ensures var u := CloseAll(t, routes);
            && (r in u.sessions <==> r in t.sessions && r !in routes)
            && (r in u.sessions ==> Has(t, r) && Has(u, r) && u.sessions[r] == t.sessions[r] && At(u, r) == At(t, r))
    decreases |routes|
  {
    if routes != [] {
      CloseKeeps(t, routes[0]);
      CloseLeaves(t, routes[0], r);
      hide Core, Close;
      CloseAllLeaves(Close(t, routes[0]), routes[1..], r);
    }
  }

  lemma CloseLeaves(t: Table, rid: Route, r: Route)
    requires Core(t)
    ensures var u := Close(t, rid);
            && (r in u.sessions <==> r in t.sessions && r != rid)
            && (r in u.sessions ==> Has(t, r) && Has(u, r) && u.sessions[r] == t.sessions[r] && At(u, r) == At(t, r))
  {
    hide Owned, Candidates, Sound, Erase;
  }

  // Losing the relay socket closes everything except established P2P sessions, which are
  // left exactly as they were.
  lemma ResetSparesDirect(t: Table, order: seq<Route>)
    requires Core(t)
    requires forall r :: r in order <==>
        r in t.sessions && !(At(t, r).transport == P2P && At(t, r).state == Established)
    ensures var u := Step(t, EvReset(order));
            && (forall r :: r in u.sessions <==>
                  r in t.sessions && At(t, r).transport == P2P && At(t, r).state == Established)
            && (forall r :: r in u.sessions ==> Has(u, r) && u.sessions[r] == t.sessions[r] && At(u, r) == At(t, r))
  {
    hide Core, CloseAll;
    var u := CloseAll(t, order);
    forall r
      ensures r in u.sessions <==> r in t.sessions && r !in order
      ensures r in u.sessions ==> Has(t, r) && Has(u, r) && u.sessions[r] == t.sessions[r] && At(u, r) == At(t, r)
    {
      CloseAllLeaves(t, order, r);
    }
  }

  // Revoking a device leaves it no session.
  lemma RevokeEndsDevice(t: Table, d: DeviceId, order: seq<Route>)
    requires Core(t) && d in t.revoked && !t.revoked[d]
    requires forall r :: r in order <==> r in t.sessions && At(t, r).deviceID == d
    ensures var u := Step(t, EvRevoke(d, order));
            && d in u.revoked && u.revoked[d]
            && forall r :: r in u.sessions ==> Has(u, r) && At(u, r).deviceID != d
  {
    var m := t.(revoked := t.revoked[d := true]);
    RevokeKeeps(t, d);
    CloseAllRevoked(m, order);
    var u := CloseAll(m, order);
    forall r | r in u.sessions ensures Has(u, r) && At(u, r).deviceID != d {
      CloseAllLeaves(m, order, r);
      assert At(m, r) == At(t, r);
    }
  }

  lemma {:induction false} CloseAllRevoked(t: Table, routes: seq<Route>)
    ensures CloseAll(t, routes).revoked == t.revoked
    decreases |routes|
  {
    if routes != [] {
      CloseAllRevoked(Close(t, routes[0]), routes[1..]);
    }
  }

  lemma {:induction false} CloseAllAppends(t: Table, routes: seq<Route>, r: Route)
    ensures CloseAll(t, routes + [r]) == Close(CloseAll(t, routes), r)
    decreases |routes|
  {
    hide Close;
    if routes == [] {
      assert CloseAll(t, [r]) == CloseAll(Close(t, r), []);
    } else {
      assert (routes + [r])[1..] == routes[1..] + [r];
      CloseAllAppends(Close(t, routes[0]), routes[1..], r);
    }
  }

  lemma DropIs(t: Table, c: Route, parent: Route)
    requires Core(t) && parent != 0 && HasCandidate(t, c, parent)
    ensures DropCandidate(t, parent) == Retire(t, c, false, true)
  {
    forall r | HasCandidate(t, r, parent) ensures r == c {
      assert r != c ==> !SameParent(t, r, c);
    }
  }
}
