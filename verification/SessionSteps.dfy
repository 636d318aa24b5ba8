/**
  The session handlers as steps on the table: the hello exchange, the P2P offer and commit,
  and the timers and callbacks that may arrive at any later time.
 */
module SessionSteps {
  import opened Basics
  import opened SessionTable

  // A handshake payload after decoding and cryptographic evaluation. `admitted` is the
  // verdict of the hello rate limit and the nonce replay list, `sent` of the reply.
  datatype Hello =
    | Malformed
    | Hello1(device: DeviceId, nonce: Bytes, ephSk: Bytes, admitted: bool, sent: bool)
    | Hello3(proofOk: bool, c2s: Bytes, s2c: Bytes, saved: bool, sent: bool)

  // ---------------------------------------------------------------- the hello exchange

  ghost function AnswerHello1(t: Table, rid: Route, h: Hello): Table
    requires Has(t, rid) && h.Hello1?
  {
    var v := At(t, rid);
    if |h.nonce| != NONCE_BYTES then Close(t, rid)
    else if v.state != ResumeHello then t
    else if h.device !in t.revoked then Close(t, rid)
    else if t.revoked[h.device] || !h.admitted then
      Close(Update(t, rid, v.(deviceID := h.device), t.keys), rid)
    else
      Update(t, rid, v.(deviceID := h.device, nonce := h.nonce, ephSk := h.ephSk, state := Hello2,
                        epochFailed := v.epochFailed || !h.sent), t.keys)
  }

  ghost predicate Verified(t: Table, rid: Route, h: Hello)
    requires Has(t, rid) && h.Hello3?
  {
    var v := At(t, rid);
    && v.deviceID in t.revoked && !t.revoked[v.deviceID]
    && v.state == Hello2 && |v.nonce| == NONCE_BYTES && h.proofOk
  }

  ghost predicate ParentReady(t: Table, v: Fields)
  {
    && Has(t, v.upgradeFrom)
    && At(t, v.upgradeFrom).state == Established
    && At(t, v.upgradeFrom).transport == Relay
    && At(t, v.upgradeFrom).deviceID == v.deviceID
  }

  ghost function OthersEstablished(t: Table, d: DeviceId): set<Route>
  {
    set r | r in t.sessions && Has(t, r) && At(t, r).state == Established && At(t, r).deviceID != d
  }

  ghost predicate CapReached(t: Table, d: DeviceId)
  {
    d !in t.byDevice && |OthersEstablished(t, d)| >= MAX_ESTABLISHED
  }

  // The two new keys of a verified exchange.
  datatype Pair = Pair(c2s: Direction, s2c: Direction)

  ghost predicate FreshPair(t: Table, p: Pair) {
    p.c2s != p.s2c && p.c2s !in t.keys && p.s2c !in t.keys
  }

  // They exist from their derivation on, whether or not the session takes them up.
  ghost function Derived(t: Table, h: Hello, p: Pair): Table
    requires h.Hello3?
  {
    t.(keys := t.keys[p.c2s := h.c2s][p.s2c := h.s2c])
  }

  ghost function WithKeys(t: Table, rid: Route, h: Hello, p: Pair, phase: Phase): Table
    requires Has(t, rid) && h.Hello3?
  {
    Update(t, rid, At(t, rid).(c2s := p.c2s, s2c := p.s2c, state := phase),
           t.keys[p.c2s := h.c2s][p.s2c := h.s2c])
  }

  ghost function Install(t: Table, rid: Route, h: Hello, p: Pair): Table
    requires Has(t, rid) && h.Hello3?
  {
    var m := WithKeys(t, rid, h, p, Established);
    m.(byDevice := m.byDevice[At(t, rid).deviceID := rid])
  }

  // A failed device save takes the index entry away again and closes the new session;
  // it does not restore the entry an older session of the device had.
  ghost function Unsaved(t: Table, rid: Route, h: Hello, p: Pair): Table
    requires Has(t, rid) && h.Hello3?
  {
    var m := Reverted(t, rid, h, p);
    m.(byDevice := m.byDevice - {At(t, rid).deviceID})
  }

  // FinishHello3, with the kick of the device's older route in the same step. Every
  // refusal ends in closing the session, as handleHello does on a false result.
  ghost function FinishHello3(t: Table, rid: Route, h: Hello, p: Pair): Table
    requires Has(t, rid) && h.Hello3?
  {
    var v := At(t, rid);
    if !Verified(t, rid, h) then Close(t, rid)
    else if v.upgradeFrom != 0 then
      if !ParentReady(t, v) then Close(Derived(t, h, p), rid)
      else
        var m := WithKeys(t, rid, h, p, UpgradeReady);
        if h.sent then m else Close(m, rid)
    else if CapReached(t, v.deviceID) then Close(Derived(t, h, p), rid)
    else if !h.saved then
      Close(Unsaved(t, rid, h, p), rid)
    else
      var k := Kicked(t, rid, h, p);
      if h.sent then k else Close(k, rid)
  }

  ghost predicate Kept(t: Table, u: Table) {
    Core(u) && Progress(t, u) && (Indexed(t) ==> Indexed(u))
  }

  lemma Hello1Keeps(t: Table, rid: Route, h: Hello)
    requires Core(t) && Has(t, rid) && h.Hello1?
    ensures Kept(t, AnswerHello1(t, rid, h))
  {
    var v := At(t, rid);
    if v.state == ResumeHello && |h.nonce| == NONCE_BYTES && h.device in t.revoked {
      if t.revoked[h.device] || !h.admitted {
        var w := v.(deviceID := h.device);
        UpdateKeeps(t, rid, w, t.keys);
        CloseChains(t, Update(t, rid, w, t.keys), rid);
      } else {
        UpdateKeeps(t, rid, v.(deviceID := h.device, nonce := h.nonce, ephSk := h.ephSk, state := Hello2,
                               epochFailed := v.epochFailed || !h.sent), t.keys);
      }
    } else {
      CloseKeeps(t, rid);
    }
  }

  lemma CloseChains(t: Table, m: Table, rid: Route)
    requires Core(m) && Progress(t, m)
    ensures Core(Close(m, rid)) && Progress(t, Close(m, rid)) && (Indexed(m) ==> Indexed(Close(m, rid)))
  {
    hide Core, Progress, Indexed, Close;
    CloseKeeps(m, rid);
    ProgressChains(t, m, Close(m, rid));
  }

  lemma DerivedOwned(t: Table, h: Hello, p: Pair)
    requires Owned(t) && h.Hello3?
    ensures Owned(Derived(t, h, p))
  {
  }

  lemma DerivedKeeps(t: Table, h: Hello, p: Pair)
    requires Core(t) && h.Hello3?
    ensures Kept(t, Derived(t, h, p))
  {
    hide Owned;
    var u := Derived(t, h, p);
    DerivedOwned(t, h, p);
    forall r, d ensures EstablishedAt(u, d, r) <==> EstablishedAt(t, d, r) {
    }
    forall r, r' | r in u.sessions && r' in u.sessions && r != r' ensures !SameParent(u, r, r') {
      assert !SameParent(t, r, r');
    }
  }

  lemma WithKeysKeeps(t: Table, rid: Route, h: Hello, p: Pair, phase: Phase)
    requires Core(t) && Has(t, rid) && h.Hello3? && FreshPair(t, p) && At(t, rid).state == Hello2
    requires phase == (if At(t, rid).upgradeFrom != 0 then UpgradeReady else Established)
    ensures Core(WithKeys(t, rid, h, p, phase)) && Progress(t, WithKeys(t, rid, h, p, phase))
    ensures Indexed(t) && phase == UpgradeReady ==> Indexed(WithKeys(t, rid, h, p, phase))
  {
    hide Owned, Sound, Indexed;
    var w := At(t, rid).(c2s := p.c2s, s2c := p.s2c, state := phase);
    var keys := t.keys[p.c2s := h.c2s][p.s2c := h.s2c];
    assert t.keys.Keys <= keys.Keys;
    UpdateKeeps(t, rid, w, keys);
  }

  // Pointing the index at an established session, and dropping an entry, keep the core.
  lemma ReindexKeeps(t: Table, byDevice: map<DeviceId, Route>)
    requires Core(t)
    requires forall d :: d in byDevice ==> EstablishedAt(t, d, byDevice[d])
    ensures Core(t.(byDevice := byDevice)) && Progress(t, t.(byDevice := byDevice))
  {
    hide Owned, Indexed;
    var u := t.(byDevice := byDevice);
    assert Owned(u) by {
      OwnedFrame(t, u);
    }
    forall d | d in u.byDevice ensures EstablishedAt(u, d, u.byDevice[d]) {
      assert EstablishedAt(t, d, byDevice[d]);
    }
    forall r, r' | r in u.sessions && r' in u.sessions && r != r' ensures !SameParent(u, r, r') {
      assert !SameParent(t, r, r');
    }
  }

  lemma OwnedFrame(t: Table, u: Table)
    requires Owned(t) && u.objs == t.objs && u.keys == t.keys
    ensures Owned(u)
  {
  }

  lemma InstallKeeps(t: Table, rid: Route, h: Hello, p: Pair)
    requires Core(t) && Has(t, rid) && h.Hello3? && FreshPair(t, p)
    requires At(t, rid).state == Hello2 && At(t, rid).upgradeFrom == 0
    ensures Core(Install(t, rid, h, p)) && Progress(t, Install(t, rid, h, p))
  {
    hide Owned, Candidates;
    WithKeysKeeps(t, rid, h, p, Established);
    var m := WithKeys(t, rid, h, p, Established);
    var d := At(t, rid).deviceID;
    assert EstablishedAt(m, d, rid);
    ReindexKeeps(m, m.byDevice[d := rid]);
    ProgressChains(t, m, Install(t, rid, h, p));
  }

  ghost function Reverted(t: Table, rid: Route, h: Hello, p: Pair): Table
    requires Has(t, rid) && h.Hello3?
  {
    Update(t, rid, At(t, rid).(c2s := null, s2c := null, state := Hello2), t.keys[p.c2s := h.c2s][p.s2c := h.s2c])
  }

  lemma RevertedKeeps(t: Table, rid: Route, h: Hello, p: Pair)
    requires Core(t) && Has(t, rid) && h.Hello3? && At(t, rid).state == Hello2
    ensures Kept(t, Reverted(t, rid, h, p))
  {
    hide Owned, Sound, Indexed;
    var keys := t.keys[p.c2s := h.c2s][p.s2c := h.s2c];
    assert t.keys.Keys <= keys.Keys;
    UpdateKeeps(t, rid, At(t, rid).(c2s := null, s2c := null, state := Hello2), keys);
  }

  lemma UnsavedKeeps(t: Table, rid: Route, h: Hello, p: Pair)
    requires Core(t) && Has(t, rid) && h.Hello3? && At(t, rid).state == Hello2
    ensures Core(Unsaved(t, rid, h, p)) && Progress(t, Unsaved(t, rid, h, p))
    ensures Indexed(t) && At(t, rid).deviceID !in t.byDevice ==> Indexed(Unsaved(t, rid, h, p))
  {
    hide Owned, Candidates, Keyed, Indexed, Progress;
    RevertedKeeps(t, rid, h, p);
    var m := Reverted(t, rid, h, p);
    ReindexKeeps(m, m.byDevice - {At(t, rid).deviceID});
    ProgressChains(t, m, Unsaved(t, rid, h, p));
    if At(t, rid).deviceID !in t.byDevice {
      assert m.byDevice - {At(t, rid).deviceID} == m.byDevice;
    }
  }

  ghost function Kicked(t: Table, rid: Route, h: Hello, p: Pair): Table
    requires Has(t, rid) && h.Hello3?
  {
    var m := Install(t, rid, h, p);
    var d := At(t, rid).deviceID;
    if d in t.byDevice && t.byDevice[d] != rid then Close(m, t.byDevice[d]) else m
  }

  lemma KickedKeeps(t: Table, rid: Route, h: Hello, p: Pair)
    requires Core(t) && Has(t, rid) && h.Hello3? && FreshPair(t, p)
    requires At(t, rid).state == Hello2 && At(t, rid).upgradeFrom == 0
    ensures Core(Kicked(t, rid, h, p)) && Progress(t, Kicked(t, rid, h, p))
  {
    InstallKeeps(t, rid, h, p);
    hide Core, Progress, Indexed, Close, Install;
    var d := At(t, rid).deviceID;
    if d in t.byDevice && t.byDevice[d] != rid {
      CloseChains(t, Install(t, rid, h, p), t.byDevice[d]);
    }
  }

  // The cap check counts sessions, the invariant counts index entries: with a sound and
  // complete index they are the same number.
  lemma EntriesAreSessions(t: Table, d: DeviceId)
    requires Core(t)
    ensures |t.byDevice.Keys - {d}| <= |OthersEstablished(t, d)|
  {
    var others := t.byDevice.Keys - {d};
    forall x | x in others ensures t.byDevice[x] in OthersEstablished(t, d) {
      assert EstablishedAt(t, x, t.byDevice[x]);
    }
    forall x, y | x in others && y in others && x != y ensures t.byDevice[x] != t.byDevice[y] {
      assert EstablishedAt(t, x, t.byDevice[x]) && EstablishedAt(t, y, t.byDevice[y]);
    }
    Injection(others, t.byDevice, OthersEstablished(t, d));
  }

  lemma {:induction false} Injection<A, B>(xs: set<A>, f: map<A, B>, ys: set<B>)
    requires xs <= f.Keys
    requires forall x :: x in xs ==> f[x] in ys
    requires forall x, y :: x in xs && y in xs && x != y ==> f[x] != f[y]
    ensures |xs| <= |ys|
  {
    if xs != {} {
      var x :| x in xs;
      Injection(xs - {x}, f, ys - {f[x]});
    }
  }

  lemma InstallKeys(t: Table, rid: Route, h: Hello, p: Pair)
    requires Has(t, rid) && h.Hello3?
    ensures Install(t, rid, h, p).byDevice.Keys == t.byDevice.Keys + {At(t, rid).deviceID}
  {
  }

  lemma KickedKeys(t: Table, rid: Route, h: Hello, p: Pair)
    requires Has(t, rid) && h.Hello3?
    ensures Kicked(t, rid, h, p).byDevice.Keys <= Install(t, rid, h, p).byDevice.Keys
  {
    hide Install;
  }

  lemma GrownSize(known: set<DeviceId>, d: DeviceId, others: nat)
    requires |known| <= MAX_ESTABLISHED && |known - {d}| <= others && (d in known || others < MAX_ESTABLISHED)
    ensures |known + {d}| <= MAX_ESTABLISHED
  {
    assert known + {d} == if d in known then known else (known - {d}) + {d};
  }

  lemma IndexSize(t: Table)
    requires Indexed(t)
    ensures |t.byDevice.Keys| <= MAX_ESTABLISHED
  {
  }

  lemma KickedSize(t: Table, rid: Route, h: Hello, p: Pair)
    requires Core(t) && Indexed(t) && Has(t, rid) && h.Hello3? && !CapReached(t, At(t, rid).deviceID)
    ensures |Kicked(t, rid, h, p).byDevice| <= MAX_ESTABLISHED
  {
    hide Core, Indexed, Install, Kicked, OthersEstablished, Has, At;
    var d := At(t, rid).deviceID;
    IndexSize(t);
    InstallKeys(t, rid, h, p);
    KickedKeys(t, rid, h, p);
    EntriesAreSessions(t, d);
    GrownSize(t.byDevice.Keys, d, |OthersEstablished(t, d)|);
    Subset(Kicked(t, rid, h, p).byDevice.Keys, t.byDevice.Keys + {d});
  }

  lemma KickedIndexed(t: Table, rid: Route, h: Hello, p: Pair)
    requires Core(t) && Indexed(t) && Has(t, rid) && h.Hello3? && FreshPair(t, p)
    requires At(t, rid).state == Hello2 && !CapReached(t, At(t, rid).deviceID)
    ensures Indexed(Kicked(t, rid, h, p))
  {
    KickedSize(t, rid, h, p);
    var k := Kicked(t, rid, h, p);
    forall r, d | EstablishedAt(k, d, r) ensures d in k.byDevice && k.byDevice[d] == r {
      KickedIndexedAt(t, rid, h, p, r, d);
    }
  }

  lemma KickedIndexedAt(t: Table, rid: Route, h: Hello, p: Pair, r: Route, d: DeviceId)
    requires Core(t) && Indexed(t) && Has(t, rid) && h.Hello3?
    requires At(t, rid).state == Hello2 && EstablishedAt(Kicked(t, rid, h, p), d, r)
    ensures d in Kicked(t, rid, h, p).byDevice && Kicked(t, rid, h, p).byDevice[d] == r
  {
    hide Owned, Candidates, Erase;
    if r != rid {
      assert t.sessions[r] != t.sessions[rid];
      assert EstablishedAt(t, d, r);
    }
  }

  // The hello exchange keeps everything, except that a failed device save costs the index
  // its entry for an older session of the same device.
  lemma FinishKeeps(t: Table, rid: Route, h: Hello, p: Pair)
    requires Core(t) && Has(t, rid) && h.Hello3? && FreshPair(t, p)
    ensures Core(FinishHello3(t, rid, h, p)) && Progress(t, FinishHello3(t, rid, h, p))
    ensures Indexed(t) && (h.saved || At(t, rid).deviceID !in t.byDevice) ==> Indexed(FinishHello3(t, rid, h, p))
  {
    hide Core, Progress, Indexed, Close, WithKeys, Unsaved, Kicked, CapReached, ParentReady, Derived;
    var v := At(t, rid);
    if !Verified(t, rid, h) {
      CloseKeeps(t, rid);
    } else if (v.upgradeFrom != 0 && !ParentReady(t, v)) || (v.upgradeFrom == 0 && CapReached(t, v.deviceID)) {
      DerivedKeeps(t, h, p);
      CloseChains(t, Derived(t, h, p), rid);
    } else if v.upgradeFrom != 0 {
      WithKeysKeeps(t, rid, h, p, UpgradeReady);
      CloseChains(t, WithKeys(t, rid, h, p, UpgradeReady), rid);
    } else if !h.saved {
      UnsavedKeeps(t, rid, h, p);
      CloseChains(t, Unsaved(t, rid, h, p), rid);
    } else {
      KickedKeeps(t, rid, h, p);
      if Indexed(t) {
        KickedIndexed(t, rid, h, p);
      }
      CloseChains(t, Kicked(t, rid, h, p), rid);
    }
  }

  ghost predicate ReachesSave(t: Table, rid: Route, h: Hello)
    requires Has(t, rid) && h.Hello3?
  {
    Verified(t, rid, h) && At(t, rid).upgradeFrom == 0 && !CapReached(t, At(t, rid).deviceID)
  }

  // Exactly when a failed device save breaks the index: the device already had a session.
  lemma SaveFailureExact(t: Table, rid: Route, h: Hello, p: Pair)
    requires Core(t) && Indexed(t) && Has(t, rid) && h.Hello3? && FreshPair(t, p)
    requires ReachesSave(t, rid, h) && !h.saved
    ensures Indexed(FinishHello3(t, rid, h, p)) <==> At(t, rid).deviceID !in t.byDevice
  {
    FinishKeeps(t, rid, h, p);
    var d := At(t, rid).deviceID;
    if d in t.byDevice {
      OrphanStays(t, rid, h, p);
    }
  }

  // The orphan: the older session is still established but the index has lost it.
  lemma OrphanStays(t: Table, rid: Route, h: Hello, p: Pair)
    requires Core(t) && Has(t, rid) && h.Hello3? && ReachesSave(t, rid, h) && !h.saved
    requires At(t, rid).deviceID in t.byDevice
    ensures var d := At(t, rid).deviceID;
            EstablishedAt(FinishHello3(t, rid, h, p), d, t.byDevice[d]) && d !in FinishHello3(t, rid, h, p).byDevice
  {
    hide Owned, Candidates, Erase;
    var d := At(t, rid).deviceID;
    var r := t.byDevice[d];
    assert EstablishedAt(t, d, r);
    assert r != rid && t.sessions[r] != t.sessions[rid];
  }

  // And its price: the device's next handshake is not matched with the orphan, so the
  // device ends up with two established sessions.
  lemma OrphanIsNotKicked(t: Table, rid: Route, h: Hello, p: Pair, orphan: Route)
    requires Core(t) && Has(t, rid) && h.Hello3? && ReachesSave(t, rid, h) && h.saved && h.sent
    requires EstablishedAt(t, At(t, rid).deviceID, orphan) && At(t, rid).deviceID !in t.byDevice
    ensures orphan != rid
    ensures EstablishedAt(FinishHello3(t, rid, h, p), At(t, rid).deviceID, orphan)
    ensures EstablishedAt(FinishHello3(t, rid, h, p), At(t, rid).deviceID, rid)
  {
    hide Owned, Candidates, Erase;
    assert orphan != rid && t.sessions[orphan] != t.sessions[rid];
  }
}
