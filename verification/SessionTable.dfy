/**
  The daemon's session table and the P2P upgrade, as steps on values.

  One handler call is one step, including the kick inside FinishHello3. Session and key
  objects are compared by reference, as the source compares pointers. Cryptography is a
  verdict plus key bytes handed to the step; a failed send marks the session's epoch and
  its cleanup is a later step of its own.
 */
module SessionTable {
  import opened Basics

  type DeviceId = string
  type Link = nat
  type Terminal = nat

  // Route ids are sixteen bytes; 0 stands for the all-zero id.
  type Route = nat

  datatype Phase = ResumeHello | Hello2 | UpgradeReady | Established | Closed
  datatype Transport = Relay | P2P

  const MAX_ESTABLISHED := 10
  const NONCE_BYTES := 16

  // One direction of a session's AEAD state, and one session: objects known by reference.
  // What they hold is kept in the table, so that two references alias exactly when they
  // are the same object.
  class Direction {
    constructor () {}
  }

  class Sess {
    constructor () {}
  }

  // The fields of one session object.
  datatype Fields = Fields(
    routeID: Route, deviceID: DeviceId, link: Option<Link>, transport: Transport, upgradeFrom: Route,
    attemptID: string, c2s: Direction?, s2c: Direction?, ephSk: Bytes, nonce: Bytes, state: Phase,
    terminal: Option<Terminal>, epochFailed: bool)

  function NewFields(routeID: Route, deviceID: DeviceId, link: Option<Link>, transport: Transport,
                     upgradeFrom: Route, attemptID: string): Fields
  {
    Fields(routeID, deviceID, link, transport, upgradeFrom, attemptID, null, null, [], [], ResumeHello, None, false)
  }

  // The engine state the handlers share: the two maps, the revocation flags, the links
  // hung up so far, every session object ever made, and every key object.
  datatype Table = Table(
    sessions: map<Route, Sess>, byDevice: map<DeviceId, Route>, revoked: map<DeviceId, bool>,
    closedLinks: set<Link>, objs: map<Sess, Fields>, keys: map<Direction, Bytes>)

  // ---------------------------------------------------------------- invariants

  ghost predicate Live(t: Table, s: Sess) {
    s in t.objs && t.objs[s].routeID in t.sessions && t.sessions[t.objs[s].routeID] == s
  }

  // Entries are known objects keyed by their own nonzero route. An object that is not in
  // the table is closed and holds no keys.
  ghost predicate Keyed(t: Table) {
    && (forall r :: r in t.sessions ==>
          && t.sessions[r] in t.objs
          && t.objs[t.sessions[r]].routeID == r
          && r != 0
          && t.objs[t.sessions[r]].state != Closed)
    && (forall s :: s in t.objs && !Live(t, s) ==> Emptied(t.objs[s]))
  }

  ghost predicate Emptied(v: Fields) {
    v.state == Closed && v.c2s == null && v.s2c == null && v.nonce == []
  }

  // Session keys are owned: no two references of any two sessions alias.
  ghost predicate Owned(t: Table) {
    && (forall s :: s in t.objs ==> HoldsKeys(t, t.objs[s]))
    && (forall s, s' :: s in t.objs && s' in t.objs && s != s' ==> Apart(t.objs[s], t.objs[s']))
  }

  ghost predicate HoldsKeys(t: Table, v: Fields) {
    && (v.c2s != null ==> v.c2s in t.keys && v.c2s != v.s2c)
    && (v.s2c != null ==> v.s2c in t.keys)
    && (v.state == Established || v.state == UpgradeReady ==> v.c2s != null && v.s2c != null)
  }

  ghost predicate Apart(v: Fields, w: Fields) {
    && (v.c2s != null ==> v.c2s != w.c2s && v.c2s != w.s2c)
    && (v.s2c != null ==> v.s2c != w.c2s && v.s2c != w.s2c)
  }

  ghost predicate EstablishedAt(t: Table, d: DeviceId, r: Route) {
    && r in t.sessions && t.sessions[r] in t.objs
    && t.objs[t.sessions[r]].state == Established
    && t.objs[t.sessions[r]].deviceID == d
  }

  ghost predicate Sound(t: Table) {
    forall d :: d in t.byDevice ==> EstablishedAt(t, d, t.byDevice[d])
  }

  // Upgrade candidates are P2P, never established, and at most one per parent route.
  ghost predicate Candidates(t: Table) {
    && (forall r :: r in t.sessions && t.sessions[r] in t.objs ==> CandidateShape(t.objs[t.sessions[r]]))
    && (forall r, r' :: r in t.sessions && r' in t.sessions && r != r' ==> !SameParent(t, r, r'))
  }

  ghost predicate CandidateShape(v: Fields) {
    && (v.upgradeFrom != 0 ==> v.transport == P2P && v.state != Established)
    && (v.state == UpgradeReady ==> v.upgradeFrom != 0)
  }

  ghost predicate SameParent(t: Table, r: Route, r': Route) {
    && r in t.sessions && r' in t.sessions && t.sessions[r] in t.objs && t.sessions[r'] in t.objs
    && t.objs[t.sessions[r]].upgradeFrom != 0
    && t.objs[t.sessions[r]].upgradeFrom == t.objs[t.sessions[r']].upgradeFrom
  }

  // Kept by every step.
  ghost predicate Core(t: Table) {
    Keyed(t) && Owned(t) && Sound(t) && Candidates(t)
  }

  // The converse of Sound, and the cap: kept by every step whose device save succeeds.
  ghost predicate Indexed(t: Table) {
    && (forall r, d :: EstablishedAt(t, d, r) ==> d in t.byDevice && t.byDevice[d] == r)
    && |t.byDevice| <= MAX_ESTABLISHED
  }

  // What no step takes back: known objects stay known, a closed session stays closed,
  // and a session past its first hello never changes device.
  ghost predicate Progress(t: Table, u: Table) {
    forall s :: s in t.objs ==>
      && s in u.objs
      && (t.objs[s].state == Closed ==> u.objs[s].state == Closed)
      && (t.objs[s].state != ResumeHello ==>
            u.objs[s].state != ResumeHello && u.objs[s].deviceID == t.objs[s].deviceID)
  }

  // ---------------------------------------------------------------- closing

  ghost function Erase(keys: map<Direction, Bytes>, a: Direction?, b: Direction?): map<Direction, Bytes> {
    map d | d in keys :: if d == a || d == b then Zeros(keys[d]) else keys[d]
  }

  function Blank(v: Fields): Fields {
    v.(c2s := null, s2c := null, nonce := [], ephSk := Zeros(v.ephSk))
  }

  function Shut(v: Fields, dropTerminal: bool): Fields {
    v.(state := Closed, terminal := if dropTerminal then None else v.terminal)
  }

  function Cleared(v: Fields, dropTerminal: bool): Fields {
    Blank(Shut(v, dropTerminal))
  }

  function HangUp(links: set<Link>, link: Option<Link>): set<Link> {
    if link.Some? then links + {link.value} else links
  }

  // Takes one session out of the table, closes it and wipes its keys.
  ghost function Retire(t: Table, rid: Route, dropTerminal: bool, hangUp: bool): Table
    requires Has(t, rid)
  {
    var s := t.sessions[rid];
    var v := t.objs[s];
    t.(sessions := t.sessions - {rid}, objs := t.objs[s := Cleared(v, dropTerminal)],
       keys := Erase(t.keys, v.c2s, v.s2c),
       closedLinks := if hangUp then HangUp(t.closedLinks, v.link) else t.closedLinks)
  }

  ghost function Unindex(t: Table, rid: Route): Table
    requires Has(t, rid)
  {
    var d := t.objs[t.sessions[rid]].deviceID;
    if d in t.byDevice && t.byDevice[d] == rid then t.(byDevice := t.byDevice - {d}) else t
  }

  ghost predicate Has(t: Table, rid: Route) {
    rid in t.sessions && t.sessions[rid] in t.objs
  }

  ghost function Close(t: Table, rid: Route): Table {
    if !Has(t, rid) then t
    else Retire(Unindex(t, rid), rid, true, t.objs[t.sessions[rid]].transport == P2P)
  }

  lemma EntriesAreKnown(t: Table)
    requires Core(t)
    ensures forall r :: r in t.sessions ==> Has(t, r) && r != 0 && t.objs[t.sessions[r]].routeID == r
  {
  }

  lemma LiveHoldsKeys(t: Table, rid: Route)
    requires Core(t) && Has(t, rid)
    ensures HoldsKeys(t, t.objs[t.sessions[rid]])
  {
  }

  lemma RetireOwned(t: Table, rid: Route, dropTerminal: bool, hangUp: bool)
    requires Core(t) && Has(t, rid)
    ensures Owned(Retire(t, rid, dropTerminal, hangUp))
  {
    hide Keyed, Sound, Candidates;
  }

  lemma RetireCandidates(t: Table, rid: Route, dropTerminal: bool, hangUp: bool)
    requires Core(t) && Has(t, rid)
    ensures Candidates(Retire(t, rid, dropTerminal, hangUp))
  {
    var u := Retire(t, rid, dropTerminal, hangUp);
    forall r, r' | r in u.sessions && r' in u.sessions && r != r' ensures !SameParent(u, r, r') {
      assert !SameParent(t, r, r');
    }
  }

  lemma RetireKeeps(t: Table, rid: Route, dropTerminal: bool, hangUp: bool)
    requires Core(t) && Has(t, rid)
    requires forall d :: d in t.byDevice ==> t.byDevice[d] != rid
    ensures Core(Retire(t, rid, dropTerminal, hangUp)) && Progress(t, Retire(t, rid, dropTerminal, hangUp))
  {
    RetireOwned(t, rid, dropTerminal, hangUp);
    RetireCandidates(t, rid, dropTerminal, hangUp);
    var u := Retire(t, rid, dropTerminal, hangUp);
    forall d | d in u.byDevice ensures EstablishedAt(u, d, u.byDevice[d]) {
      assert EstablishedAt(t, d, t.byDevice[d]);
    }
  }

  lemma UnindexKeeps(t: Table, rid: Route)
    requires Core(t) && Has(t, rid)
    ensures Core(Unindex(t, rid))
    ensures forall d :: d in Unindex(t, rid).byDevice ==> Unindex(t, rid).byDevice[d] != rid
  {
    var u := Unindex(t, rid);
    forall d | d in u.byDevice ensures EstablishedAt(u, d, u.byDevice[d]) && u.byDevice[d] != rid {
      assert EstablishedAt(t, d, t.byDevice[d]);
    }
    forall r, r' | r in u.sessions && r' in u.sessions && r != r' ensures !SameParent(u, r, r') {
      assert !SameParent(t, r, r');
    }
  }

  lemma CloseKeeps(t: Table, rid: Route)
    requires Core(t)
    ensures Core(Close(t, rid)) && Progress(t, Close(t, rid))
    ensures Indexed(t) ==> Indexed(Close(t, rid))
  {
    hide Core, Keyed, Owned, Sound, Candidates, Indexed, Progress, Retire;
    if Has(t, rid) {
      UnindexKeeps(t, rid);
      var m := Unindex(t, rid);
      RetireKeeps(m, rid, true, t.objs[t.sessions[rid]].transport == P2P);
      ProgressChains(t, m, Close(t, rid));
      if Indexed(t) {
        CloseIndexed(t, rid);
      }
    } else {
      ProgressChains(t, t, t);
    }
  }

  lemma ProgressChains(t: Table, m: Table, u: Table)
    requires t.objs == m.objs || Progress(t, m)
    requires m.objs == u.objs || Progress(m, u)
    ensures Progress(t, u)
  {
  }

  lemma CloseIndexed(t: Table, rid: Route)
    requires Core(t) && Indexed(t) && Has(t, rid)
    ensures Indexed(Close(t, rid))
  {
    hide Core;
    var u := Close(t, rid);
    assert u.byDevice.Keys <= t.byDevice.Keys by {
      hide Indexed;
    }
    Subset(u.byDevice.Keys, t.byDevice.Keys);
    forall r, d | EstablishedAt(u, d, r) ensures d in u.byDevice && u.byDevice[d] == r {
      hide Close, EstablishedAt;
      CloseIndexedAt(t, rid, r, d);
    }
  }

  lemma CloseIndexedAt(t: Table, rid: Route, r: Route, d: DeviceId)
    requires Core(t) && Indexed(t) && Has(t, rid) && EstablishedAt(Close(t, rid), d, r)
    ensures d in Close(t, rid).byDevice && Close(t, rid).byDevice[d] == r
  {
    hide Owned, Candidates, Sound, Erase;
    assert r != rid && t.sessions[r] != t.sessions[rid];
    assert EstablishedAt(t, d, r);
  }

  // ---------------------------------------------------------------- opening and updating

  // A new session object enters the table.
  ghost function Spawn(t: Table, s: Sess, v: Fields): Table {
    t.(sessions := t.sessions[v.routeID := s], objs := t.objs[s := v])
  }

  lemma SpawnKeeps(t: Table, s: Sess, v: Fields)
    requires Core(t) && s !in t.objs && v.routeID !in t.sessions && v.routeID != 0
    requires v.state == ResumeHello && v.c2s == null && v.s2c == null
    requires v.upgradeFrom != 0 ==> v.transport == P2P
    requires v.upgradeFrom != 0 ==> forall r :: Has(t, r) ==> At(t, r).upgradeFrom != v.upgradeFrom
    ensures Core(Spawn(t, s, v)) && Progress(t, Spawn(t, s, v))
    ensures Indexed(t) ==> Indexed(Spawn(t, s, v))
  {
    hide Keyed, Owned, Candidates, Sound, Indexed, Progress, Spawn;
    SpawnKeyed(t, s, v);
    SpawnOwned(t, s, v);
    SpawnCandidates(t, s, v);
    SpawnIndex(t, s, v);
  }

  lemma SpawnKeyed(t: Table, s: Sess, v: Fields)
    requires Core(t) && s !in t.objs && v.routeID !in t.sessions && v.routeID != 0 && v.state == ResumeHello
    ensures Keyed(Spawn(t, s, v)) && Progress(t, Spawn(t, s, v))
  {
    hide Owned, Candidates, Sound;
  }

  lemma SpawnOwned(t: Table, s: Sess, v: Fields)
    requires Core(t) && s !in t.objs && v.c2s == null && v.s2c == null && v.state == ResumeHello
    ensures Owned(Spawn(t, s, v))
  {
    hide Keyed, Candidates, Sound;
  }

  lemma SpawnIndex(t: Table, s: Sess, v: Fields)
    requires Core(t) && s !in t.objs && v.routeID !in t.sessions && v.state == ResumeHello
    ensures Sound(Spawn(t, s, v))
    ensures Indexed(t) ==> Indexed(Spawn(t, s, v))
  {
    hide Owned, Candidates;
    var u := Spawn(t, s, v);
    forall d | d in u.byDevice ensures EstablishedAt(u, d, u.byDevice[d]) {
      assert EstablishedAt(t, d, t.byDevice[d]);
    }
    if Indexed(t) {
      forall r, d | EstablishedAt(u, d, r) ensures d in u.byDevice && u.byDevice[d] == r {
        assert EstablishedAt(t, d, r);
      }
    }
  }

  lemma SpawnCandidates(t: Table, s: Sess, v: Fields)
    requires Core(t) && s !in t.objs && v.routeID !in t.sessions
    requires v.state == ResumeHello
    requires v.upgradeFrom != 0 ==> v.transport == P2P
    requires v.upgradeFrom != 0 ==> forall r :: Has(t, r) ==> At(t, r).upgradeFrom != v.upgradeFrom
    ensures Candidates(Spawn(t, s, v))
  {
    hide Owned, Sound;
    var u := Spawn(t, s, v);
    forall r, r' | r in u.sessions && r' in u.sessions && r != r' ensures !SameParent(u, r, r') {
      if r == v.routeID {
        assert Has(t, r');
      } else if r' == v.routeID {
        assert Has(t, r);
      } else {
        assert !SameParent(t, r, r');
      }
    }
  }

  ghost function At(t: Table, rid: Route): Fields
    requires Has(t, rid)
  {
    t.objs[t.sessions[rid]]
  }

  // A live session changes some of its fields, possibly taking up new key objects.
  ghost function Update(t: Table, rid: Route, v: Fields, keys: map<Direction, Bytes>): Table
    requires Has(t, rid)
  {
    t.(objs := t.objs[t.sessions[rid] := v], keys := keys)
  }

  // The new key references are either the old ones or objects nobody knew.
  ghost predicate FreshOrSame(t: Table, before: Direction?, after: Direction?) {
    after == before || after == null || after !in t.keys
  }

  ghost predicate MayUpdate(t: Table, rid: Route, v: Fields, keys: map<Direction, Bytes>)
    requires Has(t, rid)
  {
    var w := At(t, rid);
    && v.routeID == rid && v.state != Closed && v.upgradeFrom == w.upgradeFrom && CandidateShape(v)
    && t.keys.Keys <= keys.Keys
    && HoldsKeys(t.(keys := keys), v)
    && FreshOrSame(t, w.c2s, v.c2s) && FreshOrSame(t, w.s2c, v.s2c)
    && (w.state == Established ==> v.state == Established)
    && (w.state != ResumeHello ==> v.state != ResumeHello && v.deviceID == w.deviceID)
  }

  lemma UpdateOwned(t: Table, rid: Route, v: Fields, keys: map<Direction, Bytes>)
    requires Core(t) && Has(t, rid) && MayUpdate(t, rid, v, keys)
    ensures Owned(Update(t, rid, v, keys))
  {
    hide Keyed, Sound, Candidates;
  }

  lemma UpdateCandidates(t: Table, rid: Route, v: Fields, keys: map<Direction, Bytes>)
    requires Core(t) && Has(t, rid) && MayUpdate(t, rid, v, keys)
    ensures Candidates(Update(t, rid, v, keys))
  {
    hide Owned, Sound;
    var u := Update(t, rid, v, keys);
    forall r, r' | r in u.sessions && r' in u.sessions && r != r' ensures !SameParent(u, r, r') {
      assert !SameParent(t, r, r');
    }
  }

  lemma UpdateKeeps(t: Table, rid: Route, v: Fields, keys: map<Direction, Bytes>)
    requires Core(t) && Has(t, rid) && MayUpdate(t, rid, v, keys)
    ensures Core(Update(t, rid, v, keys)) && Progress(t, Update(t, rid, v, keys))
    ensures Indexed(t) && (v.state == Established ==> At(t, rid).state == Established)
            ==> Indexed(Update(t, rid, v, keys))
  {
    hide Keyed, Owned, Candidates, Sound, Indexed, Progress, MayUpdate, Update;
    UpdateKeyed(t, rid, v, keys);
    UpdateOwned(t, rid, v, keys);
    UpdateCandidates(t, rid, v, keys);
    UpdateIndex(t, rid, v, keys);
  }

  lemma UpdateKeyed(t: Table, rid: Route, v: Fields, keys: map<Direction, Bytes>)
    requires Core(t) && Has(t, rid) && MayUpdate(t, rid, v, keys)
    ensures Keyed(Update(t, rid, v, keys)) && Progress(t, Update(t, rid, v, keys))
  {
    hide Owned, Candidates, Sound;
  }

  lemma UpdateIndex(t: Table, rid: Route, v: Fields, keys: map<Direction, Bytes>)
    requires Core(t) && Has(t, rid) && MayUpdate(t, rid, v, keys)
    ensures Sound(Update(t, rid, v, keys))
    ensures Indexed(t) && (v.state == Established ==> At(t, rid).state == Established)
            ==> Indexed(Update(t, rid, v, keys))
  {
    hide Owned, Candidates;
    var u := Update(t, rid, v, keys);
    forall d | d in u.byDevice ensures EstablishedAt(u, d, u.byDevice[d]) {
      assert EstablishedAt(t, d, t.byDevice[d]);
    }
    if Indexed(t) && (v.state == Established ==> At(t, rid).state == Established) {
      forall r, d | EstablishedAt(u, d, r) ensures d in u.byDevice && u.byDevice[d] == r {
        assert EstablishedAt(t, d, r);
      }
    }
  }
}
