/**
  The session handlers as the daemon runs them: methods that update the engine's maps in
  place, with their loops. Each one is proved to take the table exactly one step.
 */
module SessionEngine {
  import opened Basics
  import opened SessionTable
  import opened SessionSteps
  import opened SessionRuns

  lemma Rewritten(m: map<Sess, Fields>, s: Sess, a: Fields, b: Fields)
    ensures m[s := a][s := b] == m[s := b]
  {
  }

  // A session that is no longer at its route holds no keys.
  lemma GoneIsEmptied(t: Table, s: Sess)
    requires Core(t) && s in t.objs
    requires !(t.objs[s].routeID in t.sessions && t.sessions[t.objs[s].routeID] == s)
    ensures Emptied(t.objs[s]) && Erase(t.keys, null, null) == t.keys
  {
  }

  lemma SameOthers(t: Table, u: Table, d: DeviceId)
    requires u == t.(keys := u.keys)
    ensures OthersEstablished(u, d) == OthersEstablished(t, d)
  {
    forall r ensures r in OthersEstablished(u, d) <==> r in OthersEstablished(t, d) {
    }
  }

  lemma SameParents(t: Table, u: Table, v: Fields)
    requires u == t.(keys := u.keys)
    ensures ParentReady(u, v) == ParentReady(t, v)
  {
  }

  lemma CandidateIs(t: Table, rid: Route, h: Hello, p: Pair)
    requires Has(t, rid) && h.Hello3? && Verified(t, rid, h) && At(t, rid).upgradeFrom != 0
    ensures At(t, rid).state == Hello2
    ensures FinishHello3(t, rid, h, p)
         == if !ParentReady(t, At(t, rid)) then Close(Derived(t, h, p), rid)
            else if h.sent then WithKeys(t, rid, h, p, UpgradeReady)
            else Close(WithKeys(t, rid, h, p, UpgradeReady), rid)
  {
    hide Close;
  }

  lemma DeviceIs(t: Table, rid: Route, h: Hello, p: Pair)
    requires Has(t, rid) && h.Hello3? && ReachesSave(t, rid, h)
    ensures At(t, rid).state == Hello2 && At(t, rid).upgradeFrom == 0
    ensures FinishHello3(t, rid, h, p)
         == if !h.saved then Close(Unsaved(t, rid, h, p), rid)
            else if h.sent then Kicked(t, rid, h, p)
            else Close(Kicked(t, rid, h, p), rid)
  {
    hide Close, Unsaved, Kicked, CapReached;
  }

  lemma TakenIs(t: Table, rid: Route, h: Hello, p: Pair, phase: Phase)
    requires Has(t, rid) && h.Hello3?
    ensures var m := Derived(t, h, p);
      WithKeys(t, rid, h, p, phase)
      == m.(objs := m.objs[m.sessions[rid] := m.objs[m.sessions[rid]].(c2s := p.c2s, s2c := p.s2c, state := phase)])
  {
  }

  class Engine {
    var sessions: map<Route, Sess>
    var byDevice: map<DeviceId, Route>
    var revoked: map<DeviceId, bool>
    var closedLinks: set<Link>
    var objs: map<Sess, Fields>
    var keys: map<Direction, Bytes>

    ghost function Abs(): Table
      reads this
    {
      Table(sessions, byDevice, revoked, closedLinks, objs, keys)
    }

    constructor (revoked: map<DeviceId, bool>)
      ensures Abs() == Table(map[], map[], revoked, {}, map[], map[])
      ensures Core(Abs()) && Indexed(Abs())
    {
      sessions, byDevice, this.revoked, closedLinks := map[], map[], revoked, {};
      objs, keys := map[], map[];
    }

    method ZeroKey(d: Direction)
      requires d in keys
      modifies this`keys
      ensures keys == old(keys)[d := Zeros(old(keys)[d])]
    {
      var key := keys[d];
      for i := 0 to |key|
        invariant |key| == |old(keys)[d]|
        invariant forall j :: 0 <= j < i ==> key[j] == 0
      {
        key := key[i := 0];
      }
      assert key == Zeros(keys[d]);
      keys := keys[d := key];
    }

    // wipeSession: zero the key bytes the session still points at, then forget them.
    method Wipe(s: Sess)
      requires s in objs && (objs[s].c2s != null ==> objs[s].c2s in keys && objs[s].c2s != objs[s].s2c)
      requires objs[s].s2c != null ==> objs[s].s2c in keys
      modifies this`objs, this`keys
      ensures objs == old(objs)[s := Blank(old(objs)[s])]
      ensures keys == Erase(old(keys), old(objs)[s].c2s, old(objs)[s].s2c)
    {
      var v := objs[s];
      if v.c2s != null {
        ZeroKey(v.c2s);
      }
      if v.s2c != null {
        ZeroKey(v.s2c);
      }
      var ephSk := v.ephSk;
      for i := 0 to |ephSk|
        invariant |ephSk| == |v.ephSk|
        invariant forall j :: 0 <= j < i ==> ephSk[j] == 0
      {
        ephSk := ephSk[i := 0];
      }
      assert ephSk == Zeros(v.ephSk);
      objs := objs[s := v.(c2s := null, s2c := null, nonce := [], ephSk := ephSk)];
    }

    // Takes the session at rid out of the table, closes it and wipes it.
    method Drop(rid: Route, dropTerminal: bool, hangUp: bool)
      requires Core(Abs()) && Has(Abs(), rid)
      modifies this`sessions, this`closedLinks, this`objs, this`keys
      ensures Abs() == Retire(old(Abs()), rid, dropTerminal, hangUp)
    {
      hide Core, Erase, Blank;
      LiveHoldsKeys(Abs(), rid);
      var s := sessions[rid];
      var v := objs[s];
      Rewritten(objs, s, Shut(v, dropTerminal), Cleared(v, dropTerminal));
      objs := objs[s := Shut(v, dropTerminal)];
      Wipe(s);
      sessions := sessions - {rid};
      closedLinks := if hangUp then HangUp(closedLinks, v.link) else closedLinks;
    }

    method CloseSession(rid: Route)
      requires Core(Abs())
      modifies this`sessions, this`byDevice, this`closedLinks, this`objs, this`keys
      ensures Abs() == Close(old(Abs()), rid)
    {
      if rid !in sessions {
        return;
      }
      assert Has(Abs(), rid);
      var s := sessions[rid];
      ghost var t := Abs();
      UnindexKeeps(t, rid);
      if objs[s].deviceID in byDevice && byDevice[objs[s].deviceID] == rid {
        byDevice := byDevice - {objs[s].deviceID};
      }
      assert Abs() == Unindex(t, rid);
      Drop(rid, true, objs[s].transport == P2P);
    }

    method HandleSessionBound(rid: Route, conn: Link) returns (s: Sess)
      requires Core(Abs())
      modifies this`sessions, this`closedLinks, this`objs, this`keys
      ensures s !in old(objs) && Abs() == Bound(old(Abs()), s, rid, conn)
    {
      if rid in sessions {
        Drop(rid, false, false);
      }
      s := new Sess();
      objs := objs[s := NewFields(rid, "", Some(conn), Relay, 0, "")];
      sessions := sessions[rid := s];
    }

    method FailEpochOf(s: Sess)
      requires Core(Abs())
      modifies this`sessions, this`byDevice, this`closedLinks, this`objs, this`keys
      ensures Abs() == FailEpoch(old(Abs()), s)
    {
      if s !in objs {
        return;
      }
      var v := objs[s];
      if v.routeID in sessions && sessions[v.routeID] == s {
        CloseSession(v.routeID);
      } else {
        GoneIsEmptied(Abs(), s);
        hide Core;
        Rewritten(objs, s, Shut(v, true), Cleared(v, true));
        objs := objs[s := Shut(v, true)];
        Wipe(s);
        closedLinks := if v.transport == P2P then HangUp(closedLinks, v.link) else closedLinks;
      }
    }

    method ExpireCandidate(route: Route, s: Sess)
      requires Core(Abs())
      modifies this`sessions, this`closedLinks, this`objs, this`keys
      ensures Abs() == Expire(old(Abs()), route, s)
    {
      assert route in sessions ==> Has(Abs(), route);
      if route !in sessions || sessions[route] != s || objs[s].state == Established {
        return;
      }
      Drop(route, false, true);
    }

    method HandleDirectClose(rid: Route, conn: Link)
      requires Core(Abs())
      modifies this`sessions, this`byDevice, this`closedLinks, this`objs, this`keys
      ensures Abs() == Step(old(Abs()), EvDirectClose(rid, conn))
    {
      assert rid in sessions ==> Has(Abs(), rid);
      if rid in sessions && objs[sessions[rid]].link == Some(conn) {
        CloseSession(rid);
      }
    }

    method CountOthers(d: DeviceId) returns (n: nat)
      requires Core(Abs())
      ensures n == |OthersEstablished(Abs(), d)|
    {
      assert forall r :: r in sessions ==> Has(Abs(), r);
      ghost var all := OthersEstablished(Abs(), d);
      assert forall r :: r in all <==>
        r in sessions && objs[sessions[r]].state == Established && objs[sessions[r]].deviceID != d;
      hide Core, OthersEstablished;
      n := 0;
      var todo := sessions.Keys;
      ghost var seen: set<Route> := {};
      while todo != {}
        invariant todo <= sessions.Keys && seen <= all && seen !! todo
        invariant forall r :: r in all && r !in todo ==> r in seen
        invariant n == |seen|
        decreases todo
      {
        var r :| r in todo;
        todo := todo - {r};
        var v := objs[sessions[r]];
        if v.state == Established && v.deviceID != d {
          n := n + 1;
          seen := seen + {r};
        }
      }
      assert seen == all;
    }

    // The first hello of a session: names its device and opens the exchange.
    method HandleHello1(rid: Route, h: Hello)
      requires Core(Abs()) && Has(Abs(), rid) && h.Hello1?
      modifies this`sessions, this`byDevice, this`closedLinks, this`objs, this`keys
      ensures Abs() == AnswerHello1(old(Abs()), rid, h)
    {
      var s := sessions[rid];
      if |h.nonce| != NONCE_BYTES {
        CloseSession(rid);
        return;
      }
      if objs[s].state != ResumeHello {
        return;
      }
      if h.device !in revoked {
        CloseSession(rid);
        return;
      }
      ghost var t := Abs();
      objs := objs[s := objs[s].(deviceID := h.device)];
      if revoked[h.device] || !h.admitted {
        UpdateKeeps(t, rid, At(t, rid).(deviceID := h.device), keys);
        CloseSession(rid);
        return;
      }
      objs := objs[s := objs[s].(nonce := h.nonce, ephSk := h.ephSk, state := Hello2,
                                 epochFailed := objs[s].epochFailed || !h.sent)];
      assert objs == AnswerHello1(t, rid, h).objs;
    }

    method FinishHello(rid: Route, h: Hello) returns (ghost p: Pair)
      requires Core(Abs()) && Has(Abs(), rid) && h.Hello3?
      modifies this`sessions, this`byDevice, this`closedLinks, this`objs, this`keys
      ensures FreshPair(old(Abs()), p) && Abs() == FinishHello3(old(Abs()), rid, h, p)
    {
      var c2s := new Direction();
      var s2c := new Direction();
      p := Pair(c2s, s2c);
      var s := sessions[rid];
      var v := objs[s];
      ghost var t := Abs();
      if v.deviceID !in revoked || revoked[v.deviceID] || v.state != Hello2 || |v.nonce| != NONCE_BYTES || !h.proofOk {
        CloseSession(rid);
        return;
      }
      assert Verified(t, rid, h);
      DerivedKeeps(t, h, p);
      keys := keys[c2s := h.c2s][s2c := h.s2c];
      hide Core, Close, Verified;
      if v.upgradeFrom != 0 {
        FinishCandidate(t, rid, h, c2s, s2c);
        return;
      }
      var hasOld := v.deviceID in byDevice;
      var others := CountOthers(v.deviceID);
      SameOthers(t, Abs(), v.deviceID);
      if !hasOld && others >= MAX_ESTABLISHED {
        CloseSession(rid);
        return;
      }
      FinishDevice(t, rid, h, c2s, s2c);
    }

    method TakeKeys(s: Sess, c2s: Direction, s2c: Direction, phase: Phase)
      requires s in objs
      modifies this`objs
      ensures objs == old(objs)[s := old(objs)[s].(c2s := c2s, s2c := s2c, state := phase)]
    {
      objs := objs[s := objs[s].(c2s := c2s, s2c := s2c, state := phase)];
    }

    // handleSessFWD: a frame of an established session either opens or costs it the
    // session; before that it is a hello.
    method HandleForward(rid: Route, opens: bool, h: Hello) returns (ghost p: Pair)
      requires Core(Abs())
      modifies this`sessions, this`byDevice, this`closedLinks, this`objs, this`keys
      ensures FreshPair(old(Abs()), p) && Abs() == Forward(old(Abs()), rid, opens, h, p)
    {
      hide Core, Close, AnswerHello1, FinishHello3;
      var c2s := new Direction();
      var s2c := new Direction();
      p := Pair(c2s, s2c);
      EntriesAreKnown(Abs());
      if rid !in sessions || objs[sessions[rid]].epochFailed {
        return;
      }
      if objs[sessions[rid]].state == Established {
        if !opens {
          CloseSession(rid);
        }
        return;
      }
      match h
      case Malformed => CloseSession(rid);
      case Hello1(_, _, _, _, _) => HandleHello1(rid, h);
      case Hello3(_, _, _, _, _) => p := FinishHello(rid, h);
    }

    method IsParentReady(v: Fields) returns (ready: bool)
      requires Core(Abs())
      ensures ready == ParentReady(Abs(), v)
    {
      EntriesAreKnown(Abs());
      hide Core;
      if v.upgradeFrom !in sessions { return false; }
      var parent := objs[sessions[v.upgradeFrom]];
      ready := parent.state == Established && parent.transport == Relay && parent.deviceID == v.deviceID;
    }

    // The candidate of a P2P upgrade becomes ready, if its parent still is.
    method FinishCandidate(ghost t: Table, rid: Route, h: Hello, c2s: Direction, s2c: Direction)
      requires Core(t) && Has(t, rid) && h.Hello3? && FreshPair(t, Pair(c2s, s2c))
      requires Core(Abs()) && Abs() == Derived(t, h, Pair(c2s, s2c))
      requires Verified(t, rid, h) && At(t, rid).upgradeFrom != 0
      modifies this`sessions, this`byDevice, this`closedLinks, this`objs, this`keys
      ensures Abs() == FinishHello3(t, rid, h, Pair(c2s, s2c))
    {
      hide Core, Close, Verified, ParentReady, FinishHello3, WithKeys, FreshPair;
      ghost var p := Pair(c2s, s2c);
      var v := objs[sessions[rid]];
      var ready := IsParentReady(v);
      SameParents(t, Abs(), v);
      CandidateIs(t, rid, h, p);
      if !ready {
        CloseSession(rid);
        return;
      }
      WithKeysKeeps(t, rid, h, p, UpgradeReady);
      TakeKeys(sessions[rid], c2s, s2c, UpgradeReady);
      TakenIs(t, rid, h, p, UpgradeReady);
      if !h.sent {
        CloseSession(rid);
      }
    }

    // The entry and the keys are taken back, and the session is closed without them.
    method UndoFinish(ghost t: Table, rid: Route, ghost h: Hello, ghost p: Pair)
      requires Core(t) && Has(t, rid) && h.Hello3? && FreshPair(t, p) && At(t, rid).state == Hello2
      requires Abs() == Install(t, rid, h, p)
      modifies this`sessions, this`byDevice, this`closedLinks, this`objs, this`keys
      ensures Abs() == Close(Unsaved(t, rid, h, p), rid)
    {
      hide Core, Close;
      var s := sessions[rid];
      byDevice := byDevice - {objs[s].deviceID};
      objs := objs[s := objs[s].(c2s := null, s2c := null, state := Hello2)];
      assert Abs() == Unsaved(t, rid, h, p) by {
        assert objs == Unsaved(t, rid, h, p).objs && byDevice == Unsaved(t, rid, h, p).byDevice;
      }
      UnsavedKeeps(t, rid, h, p);
      CloseSession(rid);
    }

    method KickOlder(ghost t: Table, rid: Route, ghost h: Hello, ghost p: Pair, older: Option<Route>)
      requires Core(t) && Has(t, rid) && h.Hello3? && FreshPair(t, p)
      requires At(t, rid).state == Hello2 && At(t, rid).upgradeFrom == 0 && Abs() == Install(t, rid, h, p)
      requires var d := At(t, rid).deviceID; older == if d in t.byDevice then Some(t.byDevice[d]) else None
      modifies this`sessions, this`byDevice, this`closedLinks, this`objs, this`keys
      ensures Abs() == Kicked(t, rid, h, p)
    {
      InstallKeeps(t, rid, h, p);
      hide Core, Close, Install;
      if older.Some? && older.value != rid {
        CloseSession(older.value);
      }
    }

    // A device's session becomes established and kicks the device's older one.
    method FinishDevice(ghost t: Table, rid: Route, h: Hello, c2s: Direction, s2c: Direction)
      requires Core(t) && Has(t, rid) && h.Hello3? && FreshPair(t, Pair(c2s, s2c)) && ReachesSave(t, rid, h)
      requires Abs() == Derived(t, h, Pair(c2s, s2c))
      modifies this`sessions, this`byDevice, this`closedLinks, this`objs, this`keys
      ensures Abs() == FinishHello3(t, rid, h, Pair(c2s, s2c))
    {
      hide Core, Close, CapReached, Verified, ReachesSave, FinishHello3, FreshPair, Unsaved, Kicked, WithKeys;
      ghost var p := Pair(c2s, s2c);
      DeviceIs(t, rid, h, p);
      TakenIs(t, rid, h, p, Established);
      var d := objs[sessions[rid]].deviceID;
      var older := if d in byDevice then Some(byDevice[d]) else None;
      TakeKeys(sessions[rid], c2s, s2c, Established);
      byDevice := byDevice[d := rid];
      if !h.saved {
        UndoFinish(t, rid, h, p);
        return;
      }
      KickOlder(t, rid, h, p, older);
      KickedKeeps(t, rid, h, p);
      if !h.sent {
        CloseSession(rid);
      }
    }

    method FindCandidate(parent: Route) returns (found: Option<Route>)
      requires Core(Abs())
      ensures found.Some? ==> HasCandidate(Abs(), found.value, parent)
      ensures found == None ==> forall r :: !HasCandidate(Abs(), r, parent)
    {
      assert forall r :: r in sessions ==> Has(Abs(), r);
      hide Core;
      var todo := sessions.Keys;
      while todo != {}
        invariant todo <= sessions.Keys
        invariant forall r :: r in sessions && r !in todo ==> !HasCandidate(Abs(), r, parent)
        decreases todo
      {
        var r :| r in todo;
        if objs[sessions[r]].upgradeFrom == parent {
          return Some(r);
        }
        todo := todo - {r};
      }
      return None;
    }

    method ReplaceCandidate(parent: Route)
      requires Core(Abs()) && parent != 0
      modifies this`sessions, this`closedLinks, this`objs, this`keys
      ensures Abs() == DropCandidate(old(Abs()), parent)
    {
      hide Core;
      var existing := FindCandidate(parent);
      if existing.Some? {
        DropIs(Abs(), existing.value, parent);
        Drop(existing.value, false, true);
      }
    }

    // A P2P offer replaces the parent's earlier candidate, if it had one.
    method TransportOffer(parent: Sess, route: Route, link: Link, attempt: string, replied: bool) returns (s: Sess)
      requires Core(Abs()) && route !in sessions && route != 0
      modifies this`sessions, this`closedLinks, this`objs, this`keys
      ensures s !in old(objs) && Abs() == Offer(old(Abs()), parent, s, route, link, attempt, replied)
    {
      hide Core, DropCandidate;
      s := new Sess();
      EntriesAreKnown(Abs());
      if parent !in objs || objs[parent].routeID !in sessions || sessions[objs[parent].routeID] != parent
         || objs[parent].state != Established || objs[parent].transport != Relay
      {
        return;
      }
      ghost var t := Abs();
      var p := objs[parent];
      OfferKeeps(t, parent, s, route, link, attempt, true);
      ReplaceCandidate(p.routeID);
      objs := objs[s := NewFields(route, p.deviceID, Some(link), P2P, p.routeID, attempt)];
      sessions := sessions[route := s];
      assert Abs() == Offer(t, parent, s, route, link, attempt, true);
      if !replied {
        OfferUnanswered(parent, route, s);
      }
    }

    method OfferUnanswered(parent: Sess, route: Route, s: Sess)
      requires Core(Abs())
      modifies this`sessions, this`closedLinks, this`objs, this`keys
      ensures Abs() == Expire(Poison(old(Abs()), parent), route, s)
    {
      hide Core;
      PoisonKeeps(Abs(), parent);
      if parent in objs {
        objs := objs[parent := objs[parent].(epochFailed := true)];
      }
      ExpireCandidate(route, s);
    }

    // The commit: the reply has been sealed under the old keys and sent (or not).
    method TransportCommit(parent: Sess, route: Route, attempt: string, sent: bool)
      requires Core(Abs())
      modifies this`sessions, this`byDevice, this`objs, this`keys
      ensures Abs() == Commit(old(Abs()), parent, route, attempt, sent)
    {
      assert route in sessions ==> Has(Abs(), route);
      if route !in sessions || parent !in objs {
        return;
      }
      var candidate := sessions[route];
      var p, c := objs[parent], objs[candidate];
      var valid := !p.epochFailed && !c.epochFailed && p.state == Established && p.transport == Relay
                   && p.routeID in sessions && sessions[p.routeID] == parent && c.state == UpgradeReady
                   && c.upgradeFrom == p.routeID && c.deviceID == p.deviceID && c.attemptID == attempt
                   && c.link.Some? && p.s2c != null;
      ghost var t := Abs();
      assert valid == CommitReady(t, parent, route, attempt);
      if !valid {
        return;
      }
      if !sent {
        objs := objs[parent := p.(epochFailed := true)];
        return;
      }
      LiveHoldsKeys(t, p.routeID);
      Move(parent, candidate, route);
    }

    method Move(parent: Sess, candidate: Sess, route: Route)
      requires parent in objs && candidate in objs && candidate != parent && objs[candidate].routeID == route
      requires HoldsKeys(Abs(), objs[parent])
      modifies this`sessions, this`byDevice, this`objs, this`keys
      ensures sessions == (old(sessions) - {old(objs)[parent].routeID, route})[route := parent]
      ensures byDevice == old(byDevice)[old(objs)[parent].deviceID := route]
      ensures var p, c := old(objs)[parent], old(objs)[candidate];
        objs == old(objs)[parent := Moved(p, c)][candidate := Spent(c)]
      ensures keys == Erase(old(keys), old(objs)[parent].c2s, old(objs)[parent].s2c)
    {
      var p, c := objs[parent], objs[candidate];
      sessions := sessions - {p.routeID, route};
      MoveParent(parent, c);
      MoveCandidate(candidate);
      sessions := sessions[route := parent];
      byDevice := byDevice[p.deviceID := route];
    }

    // Wipes the parent's own keys before it takes up the candidate's.
    method MoveParent(parent: Sess, c: Fields)
      requires parent in objs && HoldsKeys(Abs(), objs[parent])
      modifies this`objs, this`keys
      ensures objs == old(objs)[parent := Moved(old(objs)[parent], c)]
      ensures keys == Erase(old(keys), old(objs)[parent].c2s, old(objs)[parent].s2c)
    {
      hide Erase;
      objs := objs[parent := objs[parent].(routeID := c.routeID, link := c.link, transport := P2P)];
      Wipe(parent);
      objs := objs[parent := objs[parent].(c2s := c.c2s, s2c := c.s2c, upgradeFrom := 0, attemptID := "")];
      assert objs[parent] == Moved(old(objs)[parent], c);
    }

    // The candidate hands over its keys and link first, so that wiping it touches nothing.
    method MoveCandidate(candidate: Sess)
      requires candidate in objs
      modifies this`objs, this`keys
      ensures objs == old(objs)[candidate := Spent(old(objs)[candidate])] && keys == old(keys)
    {
      objs := objs[candidate := objs[candidate].(c2s := null, s2c := null, link := None, state := Closed)];
      Wipe(candidate);
      assert objs[candidate] == Spent(old(objs)[candidate]);
    }

    method CloseRoutes(routes: seq<Route>)
      requires Core(Abs())
      modifies this`sessions, this`byDevice, this`closedLinks, this`objs, this`keys
      ensures Abs() == CloseAll(old(Abs()), routes)
    {
      hide Core, Close;
      ghost var t := Abs();
      for i := 0 to |routes|
        invariant Core(Abs()) && Abs() == CloseAll(t, routes[..i])
      {
        CloseAllAppends(t, routes[..i], routes[i]);
        assert routes[..i + 1] == routes[..i] + [routes[i]];
        CloseKeeps(Abs(), routes[i]);
        CloseSession(routes[i]);
      }
      assert routes[..|routes|] == routes;
    }

    // After the relay socket dies: relay sessions and uncommitted candidates go.
    method ResetTransport() returns (order: seq<Route>)
      requires Core(Abs())
      modifies this`sessions, this`byDevice, this`closedLinks, this`objs, this`keys
      ensures forall r :: r in order <==>
                r in old(sessions) && !(old(At(Abs(), r)).transport == P2P && old(At(Abs(), r)).state == Established)
      ensures Abs() == Step(old(Abs()), EvReset(order))
    {
      assert forall r :: r in sessions ==> Has(Abs(), r);
      order := [];
      var todo := sessions.Keys;
      while todo != {}
        invariant todo <= sessions.Keys && unchanged(this)
        invariant forall r :: r in order <==>
                    r in sessions && r !in todo && !(At(Abs(), r).transport == P2P && At(Abs(), r).state == Established)
        decreases todo
      {
        var r :| r in todo;
        if objs[sessions[r]].transport != P2P || objs[sessions[r]].state != Established {
          order := order + [r];
        }
        todo := todo - {r};
      }
      CloseRoutes(order);
    }

    method RoutesOf(d: DeviceId) returns (routes: seq<Route>)
      requires Core(Abs())
      ensures forall r :: r in routes <==> r in sessions && At(Abs(), r).deviceID == d
    {
      assert forall r :: r in sessions ==> Has(Abs(), r);
      hide Core;
      routes := [];
      var todo := sessions.Keys;
      while todo != {}
        invariant todo <= sessions.Keys
        invariant forall r :: r in routes <==> r in sessions && r !in todo && At(Abs(), r).deviceID == d
        decreases todo
      {
        var r :| r in todo;
        if objs[sessions[r]].deviceID == d {
          routes := routes + [r];
        }
        todo := todo - {r};
      }
    }

    // The revocation is saved first; then every route of the device is closed.
    method RevokeDevice(d: DeviceId) returns (order: seq<Route>)
      requires Core(Abs())
      modifies this`sessions, this`byDevice, this`revoked, this`closedLinks, this`objs, this`keys
      ensures Abs() == Step(old(Abs()), EvRevoke(d, order))
      ensures d in old(revoked) && !old(revoked)[d] ==>
                forall r :: r in order <==> r in old(sessions) && old(At(Abs(), r)).deviceID == d
    {
      hide Core, CloseAll;
      order := [];
      if d !in revoked || revoked[d] {
        return;
      }
      EntriesAreKnown(Abs());
      RevokeKeeps(Abs(), d);
      revoked := revoked[d := true];
      order := RoutesOf(d);
      CloseRoutes(order);
    }
  }
}
