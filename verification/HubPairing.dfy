/**
  Pairing binds and pairing slots, the other way round: a pairing bind is held by the open
  slot, so that there is one at most in the whole hub. One handler can break this.
 */
module HubPairing {
  import opened Basics
  import opened Hub
  import opened HubSteps

  ghost predicate PairingAt(h: State, d: DaemonId, r: Rid) {
    BindAt(h, d, r) && TheBind(h, d, r).kind == Pairing
  }

  ghost predicate HeldBy(h: State, d: DaemonId, ref: Ref, r: Rid) {
    SlotAt(h, d, ref) && h.daemons[d].slots[ref].bind == Some(r)
  }

  ghost predicate Slotted(h: State) {
    forall d, r :: PairingAt(h, d, r) ==> exists ref :: HeldBy(h, d, ref, r)
  }

  lemma OnePairing(h: State, d: DaemonId, r: Rid, e: DaemonId, q: Rid)
    requires Inv(h) && Slotted(h) && PairingAt(h, d, r) && PairingAt(h, e, q)
    ensures d == e && r == q
  {
    hide Linked, Conns, Caps;
    var ref :| HeldBy(h, d, ref, r);
    var ref' :| HeldBy(h, e, ref', q);
  }

  // ---------------------------------------------------------------- the parts of a step

  lemma SameDaemons(h: State, k: State)
    requires Slotted(h) && k.daemons == h.daemons
    ensures Slotted(k)
  {
    forall d, r | PairingAt(k, d, r) ensures exists ref :: HeldBy(k, d, ref, r) {
      assert PairingAt(h, d, r);
      var ref :| HeldBy(h, d, ref, r);
      assert HeldBy(k, d, ref, r);
    }
  }

  lemma ReleaseSlotted(h: State, gone: set<Where>)
    requires Slotted(h)
    ensures Slotted(Release(h, gone))
  {
    var k := Release(h, gone);
    forall d, r | PairingAt(k, d, r) ensures exists ref :: HeldBy(k, d, ref, r) {
      assert PairingAt(h, d, r);
      var ref :| HeldBy(h, d, ref, r);
      assert HeldBy(k, d, ref, r);
    }
  }

  lemma SetEmptySlotted(h: State, d: DaemonId, conn: Option<DaemonWs>)
    requires Slotted(h)
    ensures Slotted(SetEmpty(h, d, conn))
  {
    var k := SetEmpty(h, d, conn);
    forall e, r | PairingAt(k, e, r) ensures exists ref :: HeldBy(k, e, ref, r) {
      assert PairingAt(h, e, r);
      var ref :| HeldBy(h, e, ref, r);
      assert HeldBy(k, e, ref, r);
    }
  }

  lemma SetBindSlotted(h: State, d: DaemonId, r: Rid, b: Bind)
    requires Slotted(h) && BindAt(h, d, r) && (b.kind == Pairing ==> TheBind(h, d, r).kind == Pairing)
    ensures Slotted(SetBind(h, d, r, b))
  {
    var k := SetBind(h, d, r, b);
    forall e, q | PairingAt(k, e, q) ensures exists ref :: HeldBy(k, e, ref, q) {
      assert PairingAt(h, e, q);
      var ref :| HeldBy(h, e, ref, q);
      assert HeldBy(k, e, ref, q);
    }
  }

  lemma AddSessionSlotted(h: State, c: ClientWs, d: DaemonId, r: Rid, b: Bind)
    requires Slotted(h) && c in h.clients && d in h.daemons && b.kind != Pairing
    ensures Slotted(AddBind(h, c, d, r, b, SessionMode))
  {
    var k := AddBind(h, c, d, r, b, SessionMode);
    forall e, q | PairingAt(k, e, q) ensures exists ref :: HeldBy(k, e, ref, q) {
      assert PairingAt(h, e, q);
      var ref :| HeldBy(h, e, ref, q);
      assert HeldBy(k, e, ref, q);
    }
  }

  // With every slot's bind released there is no pairing bind left.
  lemma ReleasedNone(h: State, gone: set<Where>)
    requires Slotted(h) && SlotBinds(h) <= gone
    ensures forall d, r :: !PairingAt(Release(h, gone), d, r)
  {
    forall d: DaemonId, r: Rid | PairingAt(h, d, r) ensures (d, r) in SlotBinds(h) {
      var ref :| HeldBy(h, d, ref, r);
    }
    forall d: DaemonId, r: Rid ensures PairingAt(Release(h, gone), d, r) ==> PairingAt(h, d, r) && (d, r) !in gone {
    }
  }

  lemma NoneSlotted(h: State, k: State)
    requires forall d, r :: !PairingAt(h, d, r)
    requires forall d :: d in k.daemons ==> d in h.daemons && k.daemons[d].binds == h.daemons[d].binds
    ensures Slotted(k)
  {
    forall d: DaemonId, r: Rid ensures !PairingAt(k, d, r) {
      assert !PairingAt(h, d, r);
    }
  }

  // ---------------------------------------------------------------- the steps

  lemma SlotGoneSlotted(h: State, d: DaemonId, ref: Ref)
    requires Inv(h) && Slotted(h)
    ensures Slotted(SlotGone(h, d, ref).next)
  {
    if SlotAt(h, d, ref) {
      OneSlotBinds(h, d, ref);
      hide Inv, Slotted, PairingAt;
      ReleasedNone(h, SlotBind(h, d, ref));
      NoneSlotted(Release(h, SlotBind(h, d, ref)), SlotGone(h, d, ref).next);
    }
  }

  lemma RefreshSlotted(h: State, d: DaemonId, ref: Ref, deadline: int)
    requires Slotted(h) && SlotAt(h, d, ref)
    ensures Slotted(SetSlots(h, d, h.daemons[d].slots[ref := h.daemons[d].slots[ref].(deadline := deadline)]))
  {
    var k := SetSlots(h, d, h.daemons[d].slots[ref := h.daemons[d].slots[ref].(deadline := deadline)]);
    forall e, r | PairingAt(k, e, r) ensures exists x :: HeldBy(k, e, x, r) {
      assert PairingAt(h, e, r);
      var x :| HeldBy(h, e, x, r);
      assert HeldBy(k, e, x, r);
    }
  }

  lemma PairOpenSlotted(h: State, conn: DaemonWs, id: DaemonId, ref: Ref, deadline: int)
    requires Slotted(h)
    ensures Slotted(PairOpen(h, conn, id, ref, deadline).next)
  {
    hide Slotted, PairingAt;
    if id in h.daemons && OwnerOf(h, conn) == Some(id) {
      if ref in h.daemons[id].slots {
        RefreshSlotted(h, id, ref, deadline);
      } else {
        ReleasedNone(h, SlotBinds(h));
        NoneSlotted(Release(h, SlotBinds(h)), PairOpen(h, conn, id, ref, deadline).next);
      }
    }
  }

  lemma SessionEstablishedSlotted(h: State, conn: DaemonWs, r: Rid)
    requires Slotted(h)
    ensures Slotted(SessionEstablished(h, conn, r).next)
  {
    hide Slotted, Release, SetBind;
    match OwnerOf(h, conn)
    case None =>
    case Some(d) =>
      ReleaseSlotted(h, {(d, r)});
      if BindAt(h, d, r) { SetBindSlotted(h, d, r, TheBind(h, d, r).(kind := Established)); }
  }

  lemma SessionAttachSlotted(h: State, c: ClientWs, d: DaemonId, now: int, r: Rid, lru: Rid, entropy: bool)
    requires Slotted(h)
    ensures Slotted(SessionAttach(h, c, d, now, r, lru, entropy).next)
  {
    hide Slotted;
    var k := Touched(h, c);
    SameDaemons(h, k);
    if MayAttach(k, c, now) && d in k.daemons && k.daemons[d].conn.Some? {
      var m := Release(k, Evicted(k, d, lru));
      ReleaseSlotted(k, Evicted(k, d, lru));
      AddSessionSlotted(m, c, d, r, Bind(c, ResumeHello, now, 0));
    }
  }

  lemma FwdFromClientSlotted(h: State, c: ClientWs)
    requires Slotted(h)
    ensures Slotted(FwdFromClient(h, c).next)
  {
    hide Slotted;
    var k := Touched(h, c);
    SameDaemons(h, k);
    var st := k.clients[c];
    if st.bind.Some? && st.daemon.Some? && BindAt(k, st.daemon.value, st.bind.value) {
      var b := TheBind(k, st.daemon.value, st.bind.value);
      SetBindSlotted(k, st.daemon.value, st.bind.value, b.(pairFrames := b.pairFrames + 1));
    }
  }

  // The attach that finds its slot expired deletes the slot but not the slot's bind.
  ghost predicate Strands(h: State, c: ClientWs, want: Option<Ref>, now: int) {
    && MayAttach(Touched(h, c), c, now)
    && exists d, ref :: Matches(h, want, d, ref) && now > h.daemons[d].slots[ref].deadline
                     && h.daemons[d].slots[ref].bind.Some?
  }

  lemma TheSlot(h: State, c: ClientWs, want: Option<Ref>, d: DaemonId, ref: Ref)
    requires SlotsOk(h) && Matches(h, want, d, ref)
    ensures FindSlot(Touched(h, c), want) == Some((d, ref))
  {
    var k := Touched(h, c);
    assert Matches(k, want, d, ref);
    var at := FindSlot(k, want).value;
    assert SlotAt(h, at.0, at.1) && SlotAt(h, d, ref);
  }

  lemma HolderIs(h: State, d: DaemonId, ref: Ref)
    requires SlotsOk(h) && Slotted(h) && SlotAt(h, d, ref)
    ensures forall e: DaemonId, r: Rid :: PairingAt(h, e, r) ==> e == d && h.daemons[d].slots[ref].bind == Some(r)
  {
    forall e: DaemonId, r: Rid | PairingAt(h, e, r) ensures e == d && h.daemons[d].slots[ref].bind == Some(r) {
      var x :| HeldBy(h, e, x, r);
      assert SlotAt(h, e, x);
    }
  }

  lemma ExpiredSlotted(h: State, d: DaemonId, ref: Ref)
    requires Inv(h) && Slotted(h) && SlotAt(h, d, ref)
    ensures Slotted(SetSlots(h, d, h.daemons[d].slots - {ref})) <==> h.daemons[d].slots[ref].bind == None
  {
    hide Linked, Conns, Caps;
    var k := SetSlots(h, d, h.daemons[d].slots - {ref});
    HolderIs(h, d, ref);
    forall e, x ensures !SlotAt(k, e, x) {
      assert SlotAt(k, e, x) ==> SlotAt(h, e, x);
    }
    forall e: DaemonId, r: Rid ensures PairingAt(k, e, r) <==> PairingAt(h, e, r) {
    }
    if h.daemons[d].slots[ref].bind.Some? {
      assert PairingAt(h, d, h.daemons[d].slots[ref].bind.value);
    }
  }

  lemma FilledSlotted(h: State, c: ClientWs, d: DaemonId, ref: Ref, r: Rid, b: Bind)
    requires Inv(h) && Slotted(h) && SlotAt(h, d, ref) && h.daemons[d].slots[ref].bind == None && c in h.clients
    ensures var m := AddBind(h, c, d, r, b, PairingMode);
      Slotted(SetSlots(m, d, m.daemons[d].slots[ref := m.daemons[d].slots[ref].(bind := Some(r))]))
  {
    HolderIs(h, d, ref);
    hide Inv, Slotted;
    var m := AddBind(h, c, d, r, b, PairingMode);
    var k := SetSlots(m, d, m.daemons[d].slots[ref := m.daemons[d].slots[ref].(bind := Some(r))]);
    forall e: DaemonId, q: Rid | PairingAt(k, e, q) ensures (e, q) == (d, r) {
      assert PairingAt(h, e, q) || (e, q) == (d, r);
    }
    assert HeldBy(k, d, ref, r);
    Singly(k, d, ref, r);
  }

  lemma Singly(h: State, d: DaemonId, ref: Ref, r: Rid)
    requires HeldBy(h, d, ref, r) && forall e: DaemonId, q: Rid :: PairingAt(h, e, q) ==> (e, q) == (d, r)
    ensures Slotted(h)
  {
  }

  lemma FoundSlotted(h: State, c: ClientWs, want: Option<Ref>, now: int, r: Rid, entropy: bool, d: DaemonId, ref: Ref)
    requires Inv(h) && Slotted(h) && MayAttach(Touched(h, c), c, now) && Matches(h, want, d, ref)
    ensures Slotted(PairAttach(h, c, want, now, r, entropy).next)
       <==> !(now > h.daemons[d].slots[ref].deadline && h.daemons[d].slots[ref].bind.Some?)
  {
    var k := Touched(h, c);
    TheSlot(h, c, want, d, ref);
    TouchedKeeps(h, c);
    SameDaemons(h, k);
    hide Inv, Slotted, FindSlot, MayAttach, ModesStick;
    if now > h.daemons[d].slots[ref].deadline {
      ExpiredSlotted(k, d, ref);
    } else if h.daemons[d].slots[ref].bind == None {
      assert c in k.clients;
      FilledSlotted(k, c, d, ref, r, Bind(c, Pairing, now, 0));
    }
  }

  lemma PairAttachSlotted(h: State, c: ClientWs, want: Option<Ref>, now: int, r: Rid, entropy: bool)
    requires Inv(h) && Slotted(h)
    ensures Slotted(PairAttach(h, c, want, now, r, entropy).next) <==> !Strands(h, c, want, now)
  {
    var k := Touched(h, c);
    if MayAttach(k, c, now) && exists d, ref :: Matches(h, want, d, ref) {
      var d, ref :| Matches(h, want, d, ref);
      forall e, x | Matches(h, want, e, x) ensures (e, x) == (d, ref) {
        hide Linked, Conns, Caps;
        assert SlotAt(h, e, x) && SlotAt(h, d, ref);
      }
      hide Inv, Slotted, PairAttach, MayAttach;
      FoundSlotted(h, c, want, now, r, entropy, d, ref);
    } else {
      hide Inv, Slotted;
      SameDaemons(h, k);
      assert forall d, ref :: Matches(k, want, d, ref) ==> Matches(h, want, d, ref);
    }
  }

  lemma DropDaemonSlotted(h: State, d: DaemonId)
    requires Slotted(h)
    ensures Slotted(DropDaemon(h, d).next)
  {
    hide Slotted, Release;
    ReleaseSlotted(h, AllOf(h, d));
    SetEmptySlotted(Release(h, AllOf(h, d)), d, None);
  }

  lemma DropClientSlotted(h: State, c: ClientWs)
    requires Slotted(h)
    ensures Slotted(DropClient(h, c).next)
  {
    hide Slotted, Release;
    if c in h.clients {
      var st := h.clients[c];
      var gone := if st.daemon.Some? && st.bind.Some? then {(st.daemon.value, st.bind.value)} else {};
      ReleaseSlotted(h, gone);
      SameDaemons(Release(h, gone), DropClient(h, c).next);
    }
  }

  // Every step keeps the pairing binds in their slots, except exactly the stranding attach.
  lemma StepSlotsExactly(h: State, e: Event)
    requires Inv(h) && Slotted(h) && Fair(h, e)
    ensures Slotted(Step(h, e).next) <==> !(e.EvPairAttach? && Strands(h, e.c, e.want, e.now))
  {
    hide Inv, Slotted, Release, PairOpen, SlotGone, SessionEstablished, PairAttach, Strands, SessionAttach,
      FwdFromClient;
    match e
    case EvJoin(conn, id, token, accepted) =>
      SetEmptySlotted(h, id, Some(conn));
      SameDaemons(SetEmpty(h, id, Some(conn)), SetEmpty(h, id, Some(conn)).(reconnect := h.reconnect[token := id]));
    case EvReconnect(conn, id, token) =>
      ReleaseSlotted(h, AllOf(h, id));
      SetEmptySlotted(Release(h, AllOf(h, id)), id, Some(conn));
    case EvPairOpen(conn, id, ref, deadline) => PairOpenSlotted(h, conn, id, ref, deadline);
    case EvPairClose(conn, ref) => if OwnerOf(h, conn).Some? { SlotGoneSlotted(h, OwnerOf(h, conn).value, ref); }
    case EvSlotExpired(id, ref) => SlotGoneSlotted(h, id, ref);
    case EvDaemonError(conn, r) => if OwnerOf(h, conn).Some? { ReleaseSlotted(h, {(OwnerOf(h, conn).value, r)}); }
    case EvSessionEstablished(conn, r) => SessionEstablishedSlotted(h, conn, r);
    case EvTouch(c) => SameDaemons(h, Touched(h, c));
    case EvClientHello(c, now) => SameDaemons(h, ClientHello(h, c, now).next);
    case EvHelloTimeout(c) => SameDaemons(h, HelloTimeout(h, c).next);
    case EvPairAttach(c, want, now, r, entropy) => PairAttachSlotted(h, c, want, now, r, entropy);
    case EvSessionAttach(c, id, now, r, lru, entropy) => SessionAttachSlotted(h, c, id, now, r, lru, entropy);
    case EvFwdFromClient(c) => FwdFromClientSlotted(h, c);
    case EvFwdFromDaemon(conn, r) =>
    case EvResumeTimeout(id, r) => ReleaseSlotted(h, {(id, r)});
    case EvPairTimeout(id, r) => ReleaseSlotted(h, {(id, r)});
    case EvClientSendFailed(id, r) => ReleaseSlotted(h, {(id, r)});
    case EvDaemonSendFailed(id, conn) => DropDaemonSlotted(h, id);
    case EvDropClient(c) => DropClientSlotted(h, c);
    case EvDropDaemonWs(conn) => if OwnerOf(h, conn).Some? { DropDaemonSlotted(h, OwnerOf(h, conn).value); }
  }

  // ---------------------------------------------------------------- every run

  ghost predicate Strandless(h: State, events: seq<Event>)
    decreases |events|
  {
    events == []
    || (!(events[0].EvPairAttach? && Strands(h, events[0].c, events[0].want, events[0].now))
        && Strandless(Step(h, events[0]).next, events[1..]))
  }

  // As long as no attach strands a bind, the hub has one pairing bind at most.
  lemma {:induction false} RunSlots(h: State, events: seq<Event>)
    requires Inv(h) && Slotted(h) && FairRun(h, events) && Strandless(h, events)
    ensures Inv(Run(h, events)) && Slotted(Run(h, events))
    decreases |events|
  {
    hide Inv, Slotted, Step, Fair, Strands;
    if events != [] {
      StepKeeps(h, events[0]);
      StepSlotsExactly(h, events[0]);
      RunSlots(Step(h, events[0]).next, events[1..]);
    }
  }

  // ---------------------------------------------------------------- how it happens

  const EMPTY := State(map[], map[], map[])

  // A daemon "d" on websocket 1, with its binds and slots and the hub's clients.
  function OneDaemon(binds: map<Rid, Bind>, slots: map<Ref, Slot>, clients: map<ClientWs, Client>): State {
    State(map["d" := Daemon(Some(1), binds, slots)], clients, map["t" := "d"])
  }

  function Fresh(at: int): Client { Client(None, None, NoMode, true, at) }

  function Attached(at: int, r: Rid): Client { Client(Some("d"), Some(r), PairingMode, true, at) }

  function Paired(c: ClientWs, at: int): Bind { Bind(c, Pairing, at, 0) }

  lemma JoinOne(events: seq<Event>)
    requires events != [] && events[0] == EvJoin(1, "d", "t", true)
    ensures Fair(EMPTY, events[0]) && Step(EMPTY, events[0]).next == OneDaemon(map[], map[], map[])
  {
  }

  lemma OwnerOne(binds: map<Rid, Bind>, slots: map<Ref, Slot>, clients: map<ClientWs, Client>)
    ensures OwnerOf(OneDaemon(binds, slots, clients), 1) == Some("d")
  {
    assert IsOwner(OneDaemon(binds, slots, clients), "d", 1);
  }

  lemma UnslottedOne(binds: map<Rid, Bind>, clients: map<ClientWs, Client>)
    ensures Unslotted(OneDaemon(binds, map[], clients)) == OneDaemon(binds, map[], clients)
  {
    var h := OneDaemon(binds, map[], clients);
    assert SlotBinds(h) == {};
    var k := Release(h, {});
    assert k.clients == h.clients;
    assert k.daemons["d"].binds == binds && k.daemons["d"].slots == map[];
    assert k.daemons == h.daemons;
    assert ClearSlots(k).daemons == h.daemons;
  }

  // Opening a slot when there is none.
  lemma OpenOne(binds: map<Rid, Bind>, clients: map<ClientWs, Client>, deadline: int)
    ensures PairOpen(OneDaemon(binds, map[], clients), 1, "d", "r", deadline).next
         == OneDaemon(binds, map["r" := Slot(None, deadline)], clients)
  {
    var h := OneDaemon(binds, map[], clients);
    OwnerOne(binds, map[], clients);
    UnslottedOne(binds, clients);
    hide Unslotted, OwnerOf;
  }

  lemma HelloOne(binds: map<Rid, Bind>, slots: map<Ref, Slot>, clients: map<ClientWs, Client>, c: ClientWs, now: int)
    requires c !in clients
    ensures ClientHello(OneDaemon(binds, slots, clients), c, now).next
        == OneDaemon(binds, slots, clients[c := Fresh(now)])
  {
    assert clients[c := Client(None, None, NoMode, false, 0)][c := Fresh(now)] == clients[c := Fresh(now)];
  }

  lemma FindOne(binds: map<Rid, Bind>, s: Slot, clients: map<ClientWs, Client>)
    ensures FindSlot(OneDaemon(binds, map["r" := s], clients), None) == Some(("d", "r"))
  {
    assert Matches(OneDaemon(binds, map["r" := s], clients), None, "d", "r");
  }

  lemma FillOne(binds: map<Rid, Bind>, deadline: int, clients: map<ClientWs, Client>, c: ClientWs, at: int, now: int,
                r: Rid)
    requires c in clients && clients[c] == Fresh(at) && now - at <= HELLO_GRACE && now <= deadline
    ensures PairAttach(OneDaemon(binds, map["r" := Slot(None, deadline)], clients), c, None, now, r, true).next
         == OneDaemon(binds[r := Paired(c, now)], map["r" := Slot(Some(r), deadline)], clients[c := Attached(at, r)])
  {
    FindOne(binds, Slot(None, deadline), clients);
    hide FindSlot;
    var slots := map["r" := Slot(None, deadline)];
    assert slots["r" := Slot(Some(r), deadline)] == map["r" := Slot(Some(r), deadline)];
  }

  lemma ExpireOne(binds: map<Rid, Bind>, s: Slot, clients: map<ClientWs, Client>, c: ClientWs, at: int, now: int,
                  r: Rid)
    requires c in clients && clients[c] == Fresh(at) && now - at <= HELLO_GRACE && now > s.deadline
    ensures PairAttach(OneDaemon(binds, map["r" := s], clients), c, None, now, r, true).next
        == OneDaemon(binds, map[], clients)
  {
    FindOne(binds, s, clients);
    hide FindSlot;
    assert map["r" := s] - {"r"} == map[];
  }

  // One client attaches in time. A second attaches after the deadline, before the slot's
  // timer has run: the slot goes, its bind stays. The daemon opens its slot again and the
  // second client attaches: two clients are pairing at once.
  const STRANDING: seq<Event> := [
    EvJoin(1, "d", "t", true), EvPairOpen(1, "d", "r", 60), EvClientHello(1, 57), EvPairAttach(1, None, 58, 7, true),
    EvClientHello(2, 60), EvPairAttach(2, None, 61, 8, true),
    EvPairOpen(1, "d", "r", 121), EvPairAttach(2, None, 62, 8, true)]

  lemma Rest(h: State, events: seq<Event>, i: nat)
    requires i < |events|
    ensures Run(h, events[i..]) == Run(Step(h, events[i]).next, events[i + 1..])
    ensures FairRun(h, events[i..]) <==> Fair(h, events[i]) && FairRun(Step(h, events[i]).next, events[i + 1..])
  {
    hide Step, Fair;
    assert events[i..][0] == events[i] && events[i..][1..] == events[i + 1..];
  }

  lemma FirstHalf(binds: map<Rid, Bind>, clients: map<ClientWs, Client>)
    requires binds == map[7 := Paired(1, 58)] && clients == map[1 := Attached(57, 7)]
    ensures var k := OneDaemon(binds, map["r" := Slot(Some(7), 60)], clients);
      && Run(EMPTY, STRANDING) == Run(k, STRANDING[4..])
      && (FairRun(EMPTY, STRANDING) <==> FairRun(k, STRANDING[4..]))
  {
    hide Run, FairRun, PairOpen, PairAttach, ClientHello, Join;
    var events := STRANDING;
    var a := OneDaemon(map[], map[], map[]);
    var b := OneDaemon(map[], map["r" := Slot(None, 60)], map[]);
    var c := OneDaemon(map[], map["r" := Slot(None, 60)], map[1 := Fresh(57)]);
    assert events[0..] == events;
    Rest(EMPTY, events, 0);
    JoinOne(events);
    Rest(a, events, 1);
    OpenOne(map[], map[], 60);
    Rest(b, events, 2);
    HelloOne(map[], map["r" := Slot(None, 60)], map[], 1, 57);
    Rest(c, events, 3);
    FillOne(map[], 60, map[1 := Fresh(57)], 1, 57, 58, 7);
    assert map[1 := Fresh(57)][1 := Attached(57, 7)] == map[1 := Attached(57, 7)];
  }

  lemma Over(h: State)
    ensures Run(h, []) == h && FairRun(h, [])
  {
  }

  lemma SecondHalf(binds: map<Rid, Bind>, clients: map<ClientWs, Client>)
    requires binds == map[7 := Paired(1, 58)] && clients == map[1 := Attached(57, 7)]
    ensures var k := OneDaemon(binds, map["r" := Slot(Some(7), 60)], clients);
      && Run(k, STRANDING[4..])
         == OneDaemon(binds[8 := Paired(2, 62)], map["r" := Slot(Some(8), 121)], clients[2 := Attached(60, 8)])
      && FairRun(k, STRANDING[4..])
  {
    hide Run, FairRun, PairOpen, PairAttach, ClientHello;
    var events, two := STRANDING, clients[2 := Fresh(60)];
    var k := OneDaemon(binds, map["r" := Slot(Some(7), 60)], clients);
    Rest(k, events, 4);
    HelloOne(binds, map["r" := Slot(Some(7), 60)], clients, 2, 60);
    var a := OneDaemon(binds, map["r" := Slot(Some(7), 60)], two);
    Rest(a, events, 5);
    ExpireOne(binds, Slot(Some(7), 60), two, 2, 60, 61, 8);
    var b := OneDaemon(binds, map[], two);
    Rest(b, events, 6);
    OpenOne(binds, two, 121);
    var c := OneDaemon(binds, map["r" := Slot(None, 121)], two);
    Rest(c, events, 7);
    FillOne(binds, 121, two, 2, 60, 62, 8);
    assert two[2 := Attached(60, 8)] == clients[2 := Attached(60, 8)];
    assert events[8..] == [];
    Over(OneDaemon(binds[8 := Paired(2, 62)], map["r" := Slot(Some(8), 121)], clients[2 := Attached(60, 8)]));
  }

  lemma TwoPairings()
    ensures Inv(EMPTY) && Slotted(EMPTY) && FairRun(EMPTY, STRANDING)
    ensures var h := Run(EMPTY, STRANDING); PairingAt(h, "d", 7) && PairingAt(h, "d", 8) && !Slotted(h)
  {
    hide Run, FairRun;
    FirstHalf(map[7 := Paired(1, 58)], map[1 := Attached(57, 7)]);
    SecondHalf(map[7 := Paired(1, 58)], map[1 := Attached(57, 7)]);
    var h := Run(EMPTY, STRANDING);
    assert forall ref :: !HeldBy(h, "d", ref, 7);
  }
}
