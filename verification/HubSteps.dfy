/**
  Every frame handler, timer and failed send of the hub as a step, the runs made of them,
  and who is told about what.
 */
module HubSteps {
  import opened Basics
  import opened Hub

  // Seconds a client has between its hello and its attach.
  const HELLO_GRACE := 5

  // The next state, and the clients that are sent one last frame and then closed.
  datatype Outcome = Outcome(next: State, informed: set<ClientWs>)

  ghost function Quiet(h: State): Outcome { Outcome(h, {}) }

  ghost function ClientsOf(h: State, gone: set<Where>): set<ClientWs> {
    set w | w in gone && BindAt(h, w.0, w.1) :: TheBind(h, w.0, w.1).client
  }

  // queueCloseBindLocked, for any set of binds.
  ghost function CloseBinds(h: State, gone: set<Where>): Outcome {
    Outcome(Release(h, gone), ClientsOf(h, gone))
  }

  ghost predicate IsOwner(h: State, d: DaemonId, conn: DaemonWs) {
    d in h.daemons && h.daemons[d].conn == Some(conn)
  }

  ghost function OwnerOf(h: State, conn: DaemonWs): Option<DaemonId> {
    if d :| IsOwner(h, d, conn) then Some(d) else None
  }

  ghost function AllOf(h: State, d: DaemonId): set<Where> {
    if d in h.daemons then set r | r in h.daemons[d].binds :: (d, r) else {}
  }

  // ---------------------------------------------------------------- daemon websocket

  ghost function Join(h: State, conn: DaemonWs, id: DaemonId, token: Token, accepted: bool): Outcome {
    if OwnerOf(h, conn).Some? || !accepted then Quiet(h)
    else Quiet(SetEmpty(h, id, Some(conn)).(reconnect := h.reconnect[token := id]))
  }

  // A reconnect takes the daemon over from its previous websocket: that one's binds are
  // closed and its slots dropped.
  ghost function Reconnect(h: State, conn: DaemonWs, id: DaemonId, token: Token): Outcome {
    if OwnerOf(h, conn).Some? || token !in h.reconnect || h.reconnect[token] != id then Quiet(h)
    else Outcome(SetEmpty(Release(h, AllOf(h, id)), id, Some(conn)), ClientsOf(h, AllOf(h, id)))
  }

  ghost function DropDaemon(h: State, d: DaemonId): Outcome {
    Outcome(SetEmpty(Release(h, AllOf(h, d)), d, None), ClientsOf(h, AllOf(h, d)))
  }

  ghost function SlotBinds(h: State): set<Where> {
    set d, ref | d in h.daemons && ref in h.daemons[d].slots && h.daemons[d].slots[ref].bind.Some? ::
      (d, h.daemons[d].slots[ref].bind.value)
  }

  ghost function ClearSlots(h: State): State {
    h.(daemons := map d | d in h.daemons :: h.daemons[d].(slots := map[]))
  }

  // Opening a pairing slot refreshes the daemon's own slot of that name, and otherwise
  // replaces whatever slot any daemon had.
  ghost function PairOpen(h: State, conn: DaemonWs, id: DaemonId, ref: Ref, deadline: int): Outcome {
    if OwnerOf(h, conn) != Some(id) || id !in h.daemons then Quiet(h)
    else if ref in h.daemons[id].slots then
      Quiet(SetSlots(h, id, h.daemons[id].slots[ref := h.daemons[id].slots[ref].(deadline := deadline)]))
    else
      Outcome(SetSlots(Unslotted(h), id, map[ref := Slot(None, deadline)]),
              ClientsOf(h, SlotBinds(h)))
  }

  ghost function SlotBind(h: State, d: DaemonId, ref: Ref): set<Where>
    requires SlotAt(h, d, ref)
  {
    var s := h.daemons[d].slots[ref];
    if s.bind.Some? then {(d, s.bind.value)} else {}
  }

  // Closing a slot, by its daemon or by its timer, closes its bind first.
  ghost function SlotGone(h: State, d: DaemonId, ref: Ref): Outcome {
    if !SlotAt(h, d, ref) then Quiet(h)
    else
      var k := Release(h, SlotBind(h, d, ref));
      Outcome(SetSlots(k, d, k.daemons[d].slots - {ref}), ClientsOf(h, SlotBind(h, d, ref)))
  }

  ghost function PairClose(h: State, conn: DaemonWs, ref: Ref): Outcome {
    match OwnerOf(h, conn)
    case None => Quiet(h)
    case Some(d) => SlotGone(h, d, ref)
  }

  ghost function BindGone(h: State, d: DaemonId, r: Rid): Outcome {
    if BindAt(h, d, r) then CloseBinds(h, {(d, r)}) else Quiet(h)
  }

  ghost function DaemonError(h: State, conn: DaemonWs, r: Rid): Outcome {
    match OwnerOf(h, conn)
    case None => Quiet(h)
    case Some(d) => BindGone(h, d, r)
  }

  ghost function SessionEstablished(h: State, conn: DaemonWs, r: Rid): Outcome {
    match OwnerOf(h, conn)
    case None => Quiet(h)
    case Some(d) =>
      if !BindAt(h, d, r) || TheBind(h, d, r).kind != ResumeHello then Quiet(h)
      else if |OfKind(h.daemons[d], Established)| >= MAX_ESTABLISHED then CloseBinds(h, {(d, r)})
      else Quiet(SetBind(h, d, r, TheBind(h, d, r).(kind := Established)))
  }

  // ---------------------------------------------------------------- client websocket

  // The first frame of a client websocket gives it a state.
  ghost function Touched(h: State, c: ClientWs): State {
    if c in h.clients then h else h.(clients := h.clients[c := Client(None, None, NoMode, false, 0)])
  }

  ghost function ClientHello(h: State, c: ClientWs, now: int): Outcome {
    var k := Touched(h, c);
    if k.clients[c].hello then Quiet(k)
    else Quiet(k.(clients := k.clients[c := k.clients[c].(hello := true, helloAt := now)]))
  }

  ghost predicate MayAttach(h: State, c: ClientWs, now: int) {
    && c in h.clients && h.clients[c].hello && now - h.clients[c].helloAt <= HELLO_GRACE
    && h.clients[c].mode == NoMode && h.clients[c].bind == None
  }

  ghost predicate Matches(h: State, want: Option<Ref>, d: DaemonId, ref: Ref) {
    SlotAt(h, d, ref) && h.daemons[d].conn.Some? && (want == None || want == Some(ref))
  }

  ghost function FindSlot(h: State, want: Option<Ref>): Option<(DaemonId, Ref)> {
    if d, ref :| Matches(h, want, d, ref) then Some((d, ref)) else None
  }

  ghost function PairAttach(h: State, c: ClientWs, want: Option<Ref>, now: int, r: Rid, entropy: bool): Outcome {
    var k := Touched(h, c);
    if !MayAttach(k, c, now) then Quiet(k)
    else
      match FindSlot(k, want)
      case None => Quiet(k)
      case Some(at) =>
        var d, ref := at.0, at.1;
        if !SlotAt(k, d, ref) then Quiet(k)
        else if now > k.daemons[d].slots[ref].deadline then Quiet(SetSlots(k, d, k.daemons[d].slots - {ref}))
        else if k.daemons[d].slots[ref].bind.Some? || !entropy then Quiet(k)
        else
          var m := AddBind(k, c, d, r, Bind(c, Pairing, now, 0), PairingMode);
          Quiet(SetSlots(m, d, m.daemons[d].slots[ref := m.daemons[d].slots[ref].(bind := Some(r))]))
  }

  // The oldest bind of a daemon that is still in its hello exchange.
  ghost predicate Oldest(d: Daemon, lru: Rid) {
    && lru in OfKind(d, ResumeHello)
    && forall r :: r in OfKind(d, ResumeHello) ==> d.binds[lru].created <= d.binds[r].created
  }

  ghost function Evicted(h: State, d: DaemonId, lru: Rid): set<Where>
    requires d in h.daemons
  {
    if |OfKind(h.daemons[d], ResumeHello)| >= MAX_RESUME then {(d, lru)} else {}
  }

  ghost function SessionAttach(h: State, c: ClientWs, d: DaemonId, now: int, r: Rid, lru: Rid, entropy: bool): Outcome {
    var k := Touched(h, c);
    if !MayAttach(k, c, now) || d !in k.daemons || k.daemons[d].conn == None then Quiet(k)
    else
      var gone := Evicted(k, d, lru);
      var m := Release(k, gone);
      if !entropy then Outcome(m, ClientsOf(k, gone))
      else Outcome(AddBind(m, c, d, r, Bind(c, ResumeHello, now, 0), SessionMode), ClientsOf(k, gone))
  }

  ghost function HelloTimeout(h: State, c: ClientWs): Outcome {
    if c in h.clients && h.clients[c].mode == NoMode then Quiet(h.(clients := h.clients - {c})) else Quiet(h)
  }

  ghost function FwdFromClient(h: State, c: ClientWs): Outcome {
    var k := Touched(h, c);
    var st := k.clients[c];
    if st.bind == None || st.daemon == None || !BindAt(k, st.daemon.value, st.bind.value) then Quiet(k)
    else
      var b := TheBind(k, st.daemon.value, st.bind.value);
      if b.kind == Pairing && k.daemons[st.daemon.value].conn.Some?
      then Quiet(SetBind(k, st.daemon.value, st.bind.value, b.(pairFrames := b.pairFrames + 1)))
      else Quiet(k)
  }

  // A client websocket that goes away takes its bind along; nobody is left to be told.
  ghost function DropClient(h: State, c: ClientWs): Outcome {
    if c !in h.clients then Quiet(h)
    else
      var st := h.clients[c];
      var gone := if st.daemon.Some? && st.bind.Some? then {(st.daemon.value, st.bind.value)} else {};
      var k := Release(h, gone);
      Quiet(k.(clients := k.clients - {c}))
  }

  // ---------------------------------------------------------------- events and runs

  datatype Event =
    | EvJoin(conn: DaemonWs, id: DaemonId, token: Token, accepted: bool)
    | EvReconnect(conn: DaemonWs, id: DaemonId, token: Token)
    | EvPairOpen(conn: DaemonWs, id: DaemonId, ref: Ref, deadline: int)
    | EvPairClose(conn: DaemonWs, ref: Ref)
    | EvSlotExpired(id: DaemonId, ref: Ref)
    | EvDaemonError(conn: DaemonWs, r: Rid)
    | EvSessionEstablished(conn: DaemonWs, r: Rid)
    | EvTouch(c: ClientWs)
    | EvClientHello(c: ClientWs, now: int)
    | EvHelloTimeout(c: ClientWs)
    | EvPairAttach(c: ClientWs, want: Option<Ref>, now: int, r: Rid, entropy: bool)
    | EvSessionAttach(c: ClientWs, id: DaemonId, now: int, r: Rid, lru: Rid, entropy: bool)
    | EvFwdFromClient(c: ClientWs)
    | EvFwdFromDaemon(conn: DaemonWs, r: Rid)
    | EvResumeTimeout(id: DaemonId, r: Rid)
    | EvPairTimeout(id: DaemonId, r: Rid)
    | EvClientSendFailed(id: DaemonId, r: Rid)
    | EvDaemonSendFailed(id: DaemonId, conn: DaemonWs)
    | EvDropClient(c: ClientWs)
    | EvDropDaemonWs(conn: DaemonWs)

  ghost function Step(h: State, e: Event): Outcome {
    match e
    case EvJoin(conn, id, token, accepted) => Join(h, conn, id, token, accepted)
    case EvReconnect(conn, id, token) => Reconnect(h, conn, id, token)
    case EvPairOpen(conn, id, ref, deadline) => PairOpen(h, conn, id, ref, deadline)
    case EvPairClose(conn, ref) => PairClose(h, conn, ref)
    case EvSlotExpired(id, ref) => SlotGone(h, id, ref)
    case EvDaemonError(conn, r) => DaemonError(h, conn, r)
    case EvSessionEstablished(conn, r) => SessionEstablished(h, conn, r)
    case EvTouch(c) => Quiet(Touched(h, c))
    case EvClientHello(c, now) => ClientHello(h, c, now)
    case EvHelloTimeout(c) => HelloTimeout(h, c)
    case EvPairAttach(c, want, now, r, entropy) => PairAttach(h, c, want, now, r, entropy)
    case EvSessionAttach(c, id, now, r, lru, entropy) => SessionAttach(h, c, id, now, r, lru, entropy)
    case EvFwdFromClient(c) => FwdFromClient(h, c)
    case EvFwdFromDaemon(conn, r) => Quiet(h)
    case EvResumeTimeout(id, r) =>
      if BindAt(h, id, r) && TheBind(h, id, r).kind == ResumeHello then BindGone(h, id, r) else Quiet(h)
    case EvPairTimeout(id, r) =>
      if BindAt(h, id, r) && TheBind(h, id, r).kind == Pairing then BindGone(h, id, r) else Quiet(h)
    case EvClientSendFailed(id, r) => BindGone(h, id, r)
    case EvDaemonSendFailed(id, conn) => if IsOwner(h, id, conn) then DropDaemon(h, id) else Quiet(h)
    case EvDropClient(c) => DropClient(h, c)
    case EvDropDaemonWs(conn) =>
      match OwnerOf(h, conn)
      case None => Quiet(h)
      case Some(d) => DropDaemon(h, d)
  }

  // What chance owes the hub: new daemon ids and route ids are new. The evicted bind is
  // one the handler's scan may settle on.
  ghost predicate Fair(h: State, e: Event) {
    match e
    case EvJoin(_, id, _, _) => id !in h.daemons
    case EvPairAttach(_, _, _, r, _) => forall d: DaemonId :: !BindAt(h, d, r)
    case EvSessionAttach(_, id, _, r, lru, _) =>
      && (forall d: DaemonId :: !BindAt(h, d, r))
      && (id in h.daemons && |OfKind(h.daemons[id], ResumeHello)| >= MAX_RESUME ==> Oldest(h.daemons[id], lru))
    case _ => true
  }

  ghost function Run(h: State, events: seq<Event>): State
    decreases |events|
  {
    if events == [] then h else Run(Step(h, events[0]).next, events[1..])
  }

  ghost predicate FairRun(h: State, events: seq<Event>)
    decreases |events|
  {
    events == [] || (Fair(h, events[0]) && FairRun(Step(h, events[0]).next, events[1..]))
  }

  // ---------------------------------------------------------------- every step keeps the invariant

  lemma Chain(h: State, k: State, m: State)
    requires Kept(h, k) && Kept(k, m)
    requires forall c :: c in h.clients && c in m.clients ==> c in k.clients
    ensures Kept(h, m)
  {
    hide Inv;
  }

  lemma Stutter(h: State)
    requires Inv(h)
    ensures Kept(h, h)
  {
    hide Inv;
  }

  lemma OwnerIs(h: State, conn: DaemonWs)
    ensures OwnerOf(h, conn) == None ==> forall d :: d in h.daemons ==> h.daemons[d].conn != Some(conn)
    ensures OwnerOf(h, conn).Some? ==> IsOwner(h, OwnerOf(h, conn).value, conn)
  {
    if OwnerOf(h, conn) == None {
      forall d | d in h.daemons ensures h.daemons[d].conn != Some(conn) {
        assert !IsOwner(h, d, conn);
      }
    }
  }

  // All of a daemon's binds go, then the entry is emptied.
  lemma EmptiedKeeps(h: State, d: DaemonId, conn: Option<DaemonWs>)
    requires Inv(h)
    requires conn.Some? ==> forall e :: e in h.daemons ==> h.daemons[e].conn != conn
    ensures Kept(h, SetEmpty(Release(h, AllOf(h, d)), d, conn))
  {
    var k := Release(h, AllOf(h, d));
    assert k.clients.Keys == h.clients.Keys;
    assert conn.Some? ==> forall e :: e in k.daemons ==> k.daemons[e].conn != conn;
    assert forall r: Rid :: !BindAt(k, d, r);
    ReleaseKeeps(h, AllOf(h, d));
    hide Inv, Release, ModesStick;
    SetEmptyKeeps(k, d, conn);
    Chain(h, k, SetEmpty(k, d, conn));
  }

  lemma JoinKeeps(h: State, conn: DaemonWs, id: DaemonId, token: Token, accepted: bool)
    requires Inv(h) && id !in h.daemons
    ensures Kept(h, Join(h, conn, id, token, accepted).next)
  {
    OwnerIs(h, conn);
    Stutter(h);
    if OwnerOf(h, conn) == None && accepted {
      SetEmptyKeeps(h, id, Some(conn));
      var k := SetEmpty(h, id, Some(conn));
      RegistryFrame(k, h.reconnect[token := id]);
    }
  }

  lemma RegistryFrame(h: State, reconnect: map<Token, DaemonId>)
    requires Inv(h)
    ensures Kept(h, h.(reconnect := reconnect))
  {
    var k := h.(reconnect := reconnect);
    forall d: DaemonId, r: Rid ensures BindAt(k, d, r) == BindAt(h, d, r) {
    }
    forall c: ClientWs, d: DaemonId, r: Rid ensures BoundTo(k, c, d, r) == BoundTo(h, c, d, r) {
    }
    forall d, ref ensures SlotAt(k, d, ref) == SlotAt(h, d, ref) {
    }
    forall d, d' ensures Owns(k, d, d') == Owns(h, d, d') {
    }
  }

  lemma ReconnectKeeps(h: State, conn: DaemonWs, id: DaemonId, token: Token)
    requires Inv(h)
    ensures Kept(h, Reconnect(h, conn, id, token).next)
  {
    hide Inv, Release, ModesStick;
    OwnerIs(h, conn);
    Stutter(h);
    if OwnerOf(h, conn) == None {
      EmptiedKeeps(h, id, Some(conn));
    }
  }

  lemma DropDaemonKeeps(h: State, d: DaemonId)
    requires Inv(h)
    ensures Kept(h, DropDaemon(h, d).next)
  {
    EmptiedKeeps(h, d, None);
  }

  lemma ClearSlotsKeeps(h: State)
    requires Inv(h)
    ensures Kept(h, ClearSlots(h)) && forall d, ref :: !SlotAt(ClearSlots(h), d, ref)
  {
    var k := ClearSlots(h);
    ClearSlotsRest(h);
    hide Caps, SlotsOk, Conns;
    forall d: DaemonId, r: Rid ensures BindAt(k, d, r) == BindAt(h, d, r) {
    }
    forall c: ClientWs, d: DaemonId, r: Rid ensures BoundTo(k, c, d, r) == BoundTo(h, c, d, r) {
    }
  }

  lemma ClearSlotsRest(h: State)
    requires Inv(h)
    ensures SlotsOk(ClearSlots(h)) && Conns(ClearSlots(h)) && Caps(ClearSlots(h))
  {
    hide Linked;
    var k := ClearSlots(h);
    forall d, d' | Owns(k, d, d') ensures d == d' {
      assert Owns(h, d, d');
    }
    forall d, kind | d in h.daemons ensures OfKind(k.daemons[d], kind) == OfKind(h.daemons[d], kind) {
    }
  }

  lemma PairOpenKeeps(h: State, conn: DaemonWs, id: DaemonId, ref: Ref, deadline: int)
    requires Inv(h)
    ensures Kept(h, PairOpen(h, conn, id, ref, deadline).next)
  {
    OwnerIs(h, conn);
    Stutter(h);
    if OwnerOf(h, conn) == Some(id) && id in h.daemons {
      if ref in h.daemons[id].slots {
        assert SlotAt(h, id, ref);
        hide Linked, Caps;
        SetSlotsKeeps(h, id, h.daemons[id].slots[ref := h.daemons[id].slots[ref].(deadline := deadline)]);
      } else {
        ReplaceSlotKeeps(h, id, ref, deadline);
      }
    }
  }

  // The one slot's bind is all that slots hold.
  lemma OneSlotBinds(h: State, d: DaemonId, ref: Ref)
    requires SlotsOk(h) && SlotAt(h, d, ref)
    ensures SlotBinds(h) == SlotBind(h, d, ref)
  {
    forall w | w in SlotBinds(h) ensures w in SlotBind(h, d, ref) {
      var e, x :| e in h.daemons && x in h.daemons[e].slots && h.daemons[e].slots[x].bind.Some?
        && w == (e, h.daemons[e].slots[x].bind.value);
      assert SlotAt(h, e, x);
    }
  }

  ghost function Unslotted(h: State): State {
    ClearSlots(Release(h, SlotBinds(h)))
  }

  lemma UnslottedKeeps(h: State)
    requires Inv(h)
    ensures Kept(h, Unslotted(h)) && Unslotted(h).clients.Keys == h.clients.Keys
    ensures forall d, ref :: !SlotAt(Unslotted(h), d, ref)
    ensures forall d :: d in h.daemons ==>
        d in Unslotted(h).daemons && Unslotted(h).daemons[d].conn == h.daemons[d].conn
  {
    var k := Release(h, SlotBinds(h));
    assert k.clients.Keys == h.clients.Keys;
    ReleaseKeeps(h, SlotBinds(h));
    ClearSlotsKeeps(k);
    hide Inv, ModesStick;
    Chain(h, k, ClearSlots(k));
  }

  lemma ReplaceSlotKeeps(h: State, id: DaemonId, ref: Ref, deadline: int)
    requires Inv(h) && id in h.daemons && h.daemons[id].conn.Some?
    ensures Kept(h, SetSlots(Unslotted(h), id, map[ref := Slot(None, deadline)]))
  {
    hide Inv, ModesStick, Unslotted;
    UnslottedKeeps(h);
    var m := Unslotted(h);
    SetSlotsKeeps(m, id, map[ref := Slot(None, deadline)]);
    Chain(h, m, SetSlots(m, id, map[ref := Slot(None, deadline)]));
  }

  lemma SlotGoneKeeps(h: State, d: DaemonId, ref: Ref)
    requires Inv(h)
    ensures Kept(h, SlotGone(h, d, ref).next)
  {
    Stutter(h);
    if SlotAt(h, d, ref) {
      var gone := SlotBind(h, d, ref);
      var k := Release(h, gone);
      assert k.clients.Keys == h.clients.Keys;
      ReleaseKeeps(h, gone);
      DropSlotKeeps(k, d, ref);
      hide Inv, Release, ModesStick;
      Chain(h, k, SetSlots(k, d, k.daemons[d].slots - {ref}));
    }
  }

  lemma DropSlotKeeps(h: State, d: DaemonId, ref: Ref)
    requires Inv(h) && SlotAt(h, d, ref)
    ensures Kept(h, SetSlots(h, d, h.daemons[d].slots - {ref}))
  {
    hide Linked, Caps;
    assert forall x :: x in h.daemons[d].slots ==> SlotAt(h, d, x);
    SetSlotsKeeps(h, d, h.daemons[d].slots - {ref});
  }

  lemma SessionEstablishedKeeps(h: State, conn: DaemonWs, r: Rid)
    requires Inv(h)
    ensures Kept(h, SessionEstablished(h, conn, r).next)
  {
    hide Inv, ModesStick, Release, SetBind;
    Stutter(h);
    match OwnerOf(h, conn)
    case None =>
    case Some(d) =>
      ReleaseKeeps(h, {(d, r)});
      if BindAt(h, d, r) && TheBind(h, d, r).kind == ResumeHello
         && |OfKind(h.daemons[d], Established)| < MAX_ESTABLISHED {
        SetBindKeeps(h, d, r, TheBind(h, d, r).(kind := Established));
      }
  }

  // ---- clients

  // A client state appears unbound, or changes in its hello only.
  lemma ClientFrame(h: State, c: ClientWs, st: Client)
    requires Inv(h)
    requires c in h.clients ==>
        st.daemon == h.clients[c].daemon && st.bind == h.clients[c].bind && st.mode == h.clients[c].mode
    requires c !in h.clients ==> st.daemon == None && st.bind == None
    ensures Kept(h, h.(clients := h.clients[c := st]))
  {
    var k := h.(clients := h.clients[c := st]);
    forall d: DaemonId, r: Rid ensures BindAt(k, d, r) == BindAt(h, d, r) {
    }
    forall x: ClientWs, d: DaemonId, r: Rid ensures BoundTo(k, x, d, r) == BoundTo(h, x, d, r) {
    }
    forall d, ref ensures SlotAt(k, d, ref) == SlotAt(h, d, ref) {
    }
    forall d, d' ensures Owns(k, d, d') == Owns(h, d, d') {
    }
  }

  lemma ClientLeaves(h: State, c: ClientWs)
    requires Inv(h) && c in h.clients && h.clients[c].bind == None
    ensures Kept(h, h.(clients := h.clients - {c}))
  {
    var k := h.(clients := h.clients - {c});
    forall d: DaemonId, r: Rid ensures BindAt(k, d, r) == BindAt(h, d, r) {
    }
    forall x: ClientWs, d: DaemonId, r: Rid ensures BoundTo(k, x, d, r) == BoundTo(h, x, d, r) {
    }
    forall d, ref ensures SlotAt(k, d, ref) == SlotAt(h, d, ref) {
    }
    forall d, d' ensures Owns(k, d, d') == Owns(h, d, d') {
    }
  }

  lemma TouchedKeeps(h: State, c: ClientWs)
    requires Inv(h)
    ensures Kept(h, Touched(h, c)) && Touched(h, c).daemons == h.daemons
  {
    Stutter(h);
    if c !in h.clients {
      ClientFrame(h, c, Client(None, None, NoMode, false, 0));
    }
  }

  lemma ClientHelloKeeps(h: State, c: ClientWs, now: int)
    requires Inv(h)
    ensures Kept(h, ClientHello(h, c, now).next)
  {
    hide Inv, ModesStick;
    TouchedKeeps(h, c);
    var k := Touched(h, c);
    if !k.clients[c].hello {
      var st := k.clients[c].(hello := true, helloAt := now);
      ClientFrame(k, c, st);
      Chain(h, k, k.(clients := k.clients[c := st]));
    }
  }

  lemma HelloTimeoutKeeps(h: State, c: ClientWs)
    requires Inv(h)
    ensures Kept(h, HelloTimeout(h, c).next)
  {
    Stutter(h);
    if c in h.clients && h.clients[c].mode == NoMode {
      Unmoded(h, c);
      ClientLeaves(h, c);
    }
  }

  // Only an attached client has a bind.
  lemma Unmoded(h: State, c: ClientWs)
    requires Inv(h) && c in h.clients && h.clients[c].mode == NoMode
    ensures h.clients[c].bind == None && h.clients[c].daemon == None
  {
    hide SlotsOk, Conns, Caps;
    assert h.clients[c].bind.Some? ==> BoundTo(h, c, h.clients[c].daemon.value, h.clients[c].bind.value);
    assert forall d: DaemonId, r: Rid :: BoundTo(h, c, d, r) ==> Fits(TheBind(h, d, r).kind, h.clients[c].mode);
  }

  lemma PairAttachKeeps(h: State, c: ClientWs, want: Option<Ref>, now: int, r: Rid, entropy: bool)
    requires Inv(h) && forall d: DaemonId :: !BindAt(h, d, r)
    ensures Kept(h, PairAttach(h, c, want, now, r, entropy).next)
  {
    TouchedKeeps(h, c);
    var k := Touched(h, c);
    if MayAttach(k, c, now) && FindSlot(k, want).Some? {
      var d, ref := FindSlot(k, want).value.0, FindSlot(k, want).value.1;
      assert Matches(k, want, d, ref);
      hide Inv, ModesStick;
      if now > k.daemons[d].slots[ref].deadline {
        DropSlotKeeps(k, d, ref);
        Chain(h, k, SetSlots(k, d, k.daemons[d].slots - {ref}));
      } else if k.daemons[d].slots[ref].bind == None && entropy {
        assert forall e: DaemonId :: !BindAt(k, e, r);
        AttachSlotKeeps(k, c, d, ref, now, r);
        Chain(h, k, PairAttach(h, c, want, now, r, entropy).next);
      }
    }
  }

  lemma AttachSlotKeeps(h: State, c: ClientWs, d: DaemonId, ref: Ref, now: int, r: Rid)
    requires Inv(h) && (forall e: DaemonId :: !BindAt(h, e, r)) && MayAttach(h, c, now)
    requires SlotAt(h, d, ref) && h.daemons[d].conn.Some?
    ensures var m := AddBind(h, c, d, r, Bind(c, Pairing, now, 0), PairingMode);
            Kept(h, SetSlots(m, d, m.daemons[d].slots[ref := m.daemons[d].slots[ref].(bind := Some(r))]))
  {
    var b := Bind(c, Pairing, now, 0);
    AddKeeps(h, c, d, r, b, PairingMode);
    var m := AddBind(h, c, d, r, b, PairingMode);
    var slots := m.daemons[d].slots[ref := m.daemons[d].slots[ref].(bind := Some(r))];
    FillSlotKeeps(m, d, ref, r);
    hide Inv, ModesStick;
    Chain(h, m, SetSlots(m, d, slots));
  }

  lemma FillSlotKeeps(h: State, d: DaemonId, ref: Ref, r: Rid)
    requires Inv(h) && SlotAt(h, d, ref) && h.daemons[d].conn.Some? && BindAt(h, d, r)
        && TheBind(h, d, r).kind == Pairing
    ensures Kept(h, SetSlots(h, d, h.daemons[d].slots[ref := h.daemons[d].slots[ref].(bind := Some(r))]))
  {
    hide Linked, Caps;
    assert forall x :: x in h.daemons[d].slots ==> SlotAt(h, d, x);
    SetSlotsKeeps(h, d, h.daemons[d].slots[ref := h.daemons[d].slots[ref].(bind := Some(r))]);
  }

  lemma SessionAttachKeeps(h: State, c: ClientWs, d: DaemonId, now: int, r: Rid, lru: Rid, entropy: bool)
    requires Inv(h) && Fair(h, EvSessionAttach(c, d, now, r, lru, entropy))
    ensures Kept(h, SessionAttach(h, c, d, now, r, lru, entropy).next)
  {
    TouchedKeeps(h, c);
    var k := Touched(h, c);
    if MayAttach(k, c, now) && d in k.daemons && k.daemons[d].conn.Some? {
      var gone := Evicted(k, d, lru);
      var m := Release(k, gone);
      assert forall e: DaemonId :: !BindAt(k, e, r);
      EvictedRoom(k, d, lru);
      ReleaseKeeps(k, gone);
      assert m.clients.Keys == k.clients.Keys && m.daemons[d].conn.Some? && m.clients[c] == k.clients[c];
      assert forall e: DaemonId :: BindAt(m, e, r) ==> BindAt(k, e, r);
      hide Inv, ModesStick, Release;
      Chain(h, k, m);
      if entropy {
        AddKeeps(m, c, d, r, Bind(c, ResumeHello, now, 0), SessionMode);
        Chain(h, m, AddBind(m, c, d, r, Bind(c, ResumeHello, now, 0), SessionMode));
      }
    }
  }

  // After the eviction there is room for one more hello.
  lemma EvictedRoom(h: State, d: DaemonId, lru: Rid)
    requires Inv(h) && d in h.daemons
    requires |OfKind(h.daemons[d], ResumeHello)| >= MAX_RESUME ==> Oldest(h.daemons[d], lru)
    ensures |OfKind(Release(h, Evicted(h, d, lru)).daemons[d], ResumeHello)| < MAX_RESUME
  {
    hide Linked, SlotsOk, Conns;
    var k := Release(h, Evicted(h, d, lru));
    if |OfKind(h.daemons[d], ResumeHello)| >= MAX_RESUME {
      assert OfKind(k.daemons[d], ResumeHello) == OfKind(h.daemons[d], ResumeHello) - {lru};
    } else {
      assert OfKind(k.daemons[d], ResumeHello) == OfKind(h.daemons[d], ResumeHello);
    }
  }

  lemma FwdFromClientKeeps(h: State, c: ClientWs)
    requires Inv(h)
    ensures Kept(h, FwdFromClient(h, c).next)
  {
    hide Inv, ModesStick;
    TouchedKeeps(h, c);
    var k := Touched(h, c);
    var st := k.clients[c];
    if st.bind.Some? && st.daemon.Some? && BindAt(k, st.daemon.value, st.bind.value) {
      var b := TheBind(k, st.daemon.value, st.bind.value);
      var b' := b.(pairFrames := b.pairFrames + 1);
      SetBindKeeps(k, st.daemon.value, st.bind.value, b');
      Chain(h, k, SetBind(k, st.daemon.value, st.bind.value, b'));
    }
  }

  lemma DropClientKeeps(h: State, c: ClientWs)
    requires Inv(h)
    ensures Kept(h, DropClient(h, c).next)
  {
    Stutter(h);
    if c in h.clients {
      var st := h.clients[c];
      var gone := if st.daemon.Some? && st.bind.Some? then {(st.daemon.value, st.bind.value)} else {};
      var k := Release(h, gone);
      assert k.clients.Keys == h.clients.Keys;
      assert k.clients[c].bind == None;
      ReleaseKeeps(h, gone);
      ClientLeaves(k, c);
      hide Inv, ModesStick;
      Chain(h, k, k.(clients := k.clients - {c}));
    }
  }

  lemma StepKeeps(h: State, e: Event)
    requires Inv(h) && Fair(h, e)
    ensures Kept(h, Step(h, e).next)
  {
    hide Inv, ModesStick, Release, Join, Reconnect, PairOpen, SlotGone, SessionEstablished, Touched, ClientHello,
      HelloTimeout, PairAttach, SessionAttach, FwdFromClient, DropDaemon, DropClient;
    Stutter(h);
    match e
    case EvJoin(conn, id, token, accepted) => JoinKeeps(h, conn, id, token, accepted);
    case EvReconnect(conn, id, token) => ReconnectKeeps(h, conn, id, token);
    case EvPairOpen(conn, id, ref, deadline) => PairOpenKeeps(h, conn, id, ref, deadline);
    case EvPairClose(conn, ref) => if OwnerOf(h, conn).Some? { SlotGoneKeeps(h, OwnerOf(h, conn).value, ref); }
    case EvSlotExpired(id, ref) => SlotGoneKeeps(h, id, ref);
    case EvDaemonError(conn, r) => if OwnerOf(h, conn).Some? { ReleaseKeeps(h, {(OwnerOf(h, conn).value, r)}); }
    case EvSessionEstablished(conn, r) => SessionEstablishedKeeps(h, conn, r);
    case EvTouch(c) => TouchedKeeps(h, c);
    case EvClientHello(c, now) => ClientHelloKeeps(h, c, now);
    case EvHelloTimeout(c) => HelloTimeoutKeeps(h, c);
    case EvPairAttach(c, want, now, r, entropy) => PairAttachKeeps(h, c, want, now, r, entropy);
    case EvSessionAttach(c, id, now, r, lru, entropy) => SessionAttachKeeps(h, c, id, now, r, lru, entropy);
    case EvFwdFromClient(c) => FwdFromClientKeeps(h, c);
    case EvFwdFromDaemon(conn, r) =>
    case EvResumeTimeout(id, r) => ReleaseKeeps(h, {(id, r)});
    case EvPairTimeout(id, r) => ReleaseKeeps(h, {(id, r)});
    case EvClientSendFailed(id, r) => ReleaseKeeps(h, {(id, r)});
    case EvDaemonSendFailed(id, conn) => DropDaemonKeeps(h, id);
    case EvDropClient(c) => DropClientKeeps(h, c);
    case EvDropDaemonWs(conn) => if OwnerOf(h, conn).Some? { DropDaemonKeeps(h, OwnerOf(h, conn).value); }
  }

  // Every reachable hub satisfies the invariant.
  lemma {:induction false} RunKeeps(h: State, events: seq<Event>)
    requires Inv(h) && FairRun(h, events)
    ensures Inv(Run(h, events))
    decreases |events|
  {
    hide Inv, Step, Fair;
    if events != [] {
      StepKeeps(h, events[0]);
      RunKeeps(Step(h, events[0]).next, events[1..]);
    }
  }

  // ---------------------------------------------------------------- who is told

  // Exactly the clients whose bind leaves the hub are sent a last frame and closed.
  ghost predicate Informs(h: State, o: Outcome) {
    && (forall c: ClientWs, d: DaemonId, r: Rid :: BoundTo(h, c, d, r) ==>
         (c in o.informed <==> !BoundTo(o.next, c, d, r)))
    && (forall c :: c in o.informed ==> c in h.clients && h.clients[c].bind.Some?)
  }

  // Only the client states matter here, and a bind added later is another client's.
  lemma ReleaseInforms(h: State, gone: set<Where>, k: State)
    requires Inv(h)
    requires forall c: ClientWs, d: DaemonId, r: Rid :: BoundTo(h, c, d, r) ==>
               (BoundTo(k, c, d, r) <==> BoundTo(Release(h, gone), c, d, r))
    ensures Informs(h, Outcome(k, ClientsOf(h, gone)))
  {
    hide SlotsOk, Conns, Caps;
    forall c: ClientWs, d: DaemonId, r: Rid | BoundTo(h, c, d, r)
      ensures c in ClientsOf(h, gone) <==> !BoundTo(k, c, d, r)
    {
      assert BindAt(h, d, r) && TheBind(h, d, r).client == c;
      if c in ClientsOf(h, gone) {
        var w :| w in gone && BindAt(h, w.0, w.1) && TheBind(h, w.0, w.1).client == c;
        assert BoundTo(h, c, w.0, w.1);
      } else {
        assert (d, r) in gone ==> BindAt(h, (d, r).0, (d, r).1);
      }
    }
    forall c | c in ClientsOf(h, gone) ensures c in h.clients && h.clients[c].bind.Some? {
      var w :| w in gone && BindAt(h, w.0, w.1) && TheBind(h, w.0, w.1).client == c;
      assert BoundTo(h, c, w.0, w.1);
    }
  }

  lemma SameClientsInform(h: State, gone: set<Where>, k: State)
    requires Inv(h) && k.clients == Release(h, gone).clients
    ensures Informs(h, Outcome(k, ClientsOf(h, gone)))
  {
    hide Inv, Informs, Release, ClientsOf;
    ReleaseInforms(h, gone, k);
  }

  lemma TouchedLinks(h: State, c: ClientWs)
    ensures forall x: ClientWs, d: DaemonId, r: Rid :: BoundTo(Touched(h, c), x, d, r) <==> BoundTo(h, x, d, r)
    ensures forall d: DaemonId, r: Rid :: BindAt(Touched(h, c), d, r) <==> BindAt(h, d, r)
  {
  }

  lemma SessionAttachInforms(h: State, c: ClientWs, d: DaemonId, now: int, r: Rid, lru: Rid, entropy: bool)
    requires Inv(h)
    ensures Informs(h, SessionAttach(h, c, d, now, r, lru, entropy))
  {
    TouchedKeeps(h, c);
    TouchedLinks(h, c);
    hide Inv, ModesStick;
    var k := Touched(h, c);
    if MayAttach(k, c, now) && d in k.daemons && k.daemons[d].conn.Some? {
      ReleaseInforms(k, Evicted(k, d, lru), SessionAttach(h, c, d, now, r, lru, entropy).next);
    }
  }

  // A step that closes no bind leaves every bound client bound.
  lemma QuietInforms(h: State, e: Event)
    requires Inv(h)
    requires e.EvJoin? || e.EvTouch? || e.EvClientHello? || e.EvHelloTimeout? || e.EvPairAttach? || e.EvFwdFromClient?
             || e.EvFwdFromDaemon?
    ensures Informs(h, Step(h, e))
  {
    if e.EvHelloTimeout? && e.c in h.clients && h.clients[e.c].mode == NoMode {
      Unmoded(h, e.c);
    }
    hide Inv;
  }

  lemma StepInforms(h: State, e: Event)
    requires Inv(h) && Fair(h, e) && !e.EvDropClient?
    ensures Informs(h, Step(h, e))
  {
    hide Inv, Informs, Closing, SessionAttach, Join, Reconnect, PairOpen, PairClose, SlotGone, DaemonError,
      SessionEstablished, Touched, ClientHello, HelloTimeout, PairAttach, FwdFromClient, DropDaemon, DropClient,
      BindGone, Fair;
    if e.EvJoin? || e.EvTouch? || e.EvClientHello? || e.EvHelloTimeout? || e.EvPairAttach? || e.EvFwdFromClient?
       || e.EvFwdFromDaemon? {
      QuietInforms(h, e);
    } else if e.EvSessionAttach? {
      SessionAttachInforms(h, e.c, e.id, e.now, e.r, e.lru, e.entropy);
      assert Step(h, e) == SessionAttach(h, e.c, e.id, e.now, e.r, e.lru, e.entropy);
    } else {
      ClosingIs(h, e);
      SameClientsInform(h, Closing(h, e), Step(h, e).next);
    }
  }

  lemma ClosingIs(h: State, e: Event)
    requires !(e.EvJoin? || e.EvTouch? || e.EvClientHello? || e.EvHelloTimeout? || e.EvPairAttach? || e.EvFwdFromClient?
               || e.EvFwdFromDaemon? || e.EvSessionAttach? || e.EvDropClient?)
    ensures Step(h, e).informed == ClientsOf(h, Closing(h, e))
    ensures Step(h, e).next.clients == Release(h, Closing(h, e)).clients
  {
    hide ClientsOf, Without, OfKind;
    ReleaseNothing(h);
    if Closing(h, e) == {} {
      assert Step(h, e).next.clients == h.clients && Step(h, e).informed == {};
    }
  }

  lemma ReleaseNothing(h: State)
    ensures Release(h, {}).clients == h.clients && ClientsOf(h, {}) == {}
  {
  }

  // The binds an event of the daemon side, a timer or a failed send takes away.
  ghost function Closing(h: State, e: Event): set<Where> {
    match e
    case EvReconnect(conn, id, token) => if Reconnect(h, conn, id, token) == Quiet(h) then {} else AllOf(h, id)
    case EvPairOpen(conn, id, ref, _) =>
      if OwnerOf(h, conn) == Some(id) && id in h.daemons && ref !in h.daemons[id].slots then SlotBinds(h) else {}
    case EvPairClose(conn, ref) =>
      if OwnerOf(h, conn).Some? && SlotAt(h, OwnerOf(h, conn).value, ref)
      then SlotBind(h, OwnerOf(h, conn).value, ref) else {}
    case EvSlotExpired(id, ref) => if SlotAt(h, id, ref) then SlotBind(h, id, ref) else {}
    case EvDaemonError(conn, r) =>
      if OwnerOf(h, conn).Some? && BindAt(h, OwnerOf(h, conn).value, r) then {(OwnerOf(h, conn).value, r)} else {}
    case EvSessionEstablished(conn, r) =>
      if OwnerOf(h, conn).Some? && BindAt(h, OwnerOf(h, conn).value, r)
        && TheBind(h, OwnerOf(h, conn).value, r).kind == ResumeHello
         && |OfKind(h.daemons[OwnerOf(h, conn).value], Established)| >= MAX_ESTABLISHED
      then {(OwnerOf(h, conn).value, r)} else {}
    case EvResumeTimeout(id, r) => if BindAt(h, id, r) && TheBind(h, id, r).kind == ResumeHello then {(id, r)} else {}
    case EvPairTimeout(id, r) => if BindAt(h, id, r) && TheBind(h, id, r).kind == Pairing then {(id, r)} else {}
    case EvClientSendFailed(id, r) => if BindAt(h, id, r) then {(id, r)} else {}
    case EvDaemonSendFailed(id, conn) => if IsOwner(h, id, conn) then AllOf(h, id) else {}
    case EvDropDaemonWs(conn) => if OwnerOf(h, conn).Some? then AllOf(h, OwnerOf(h, conn).value) else {}
    case _ => {}
  }

  // A dropped client websocket takes its own bind along and nobody else's.
  lemma DropClientInforms(h: State, c: ClientWs)
    requires Inv(h)
    ensures Step(h, EvDropClient(c)).informed == {} && c !in Step(h, EvDropClient(c)).next.clients
    ensures forall x: ClientWs, d: DaemonId, r: Rid :: BoundTo(h, x, d, r) && x != c ==>
              BoundTo(Step(h, EvDropClient(c)).next, x, d, r)
  {
    hide SlotsOk, Conns, Caps;
    var k := Step(h, EvDropClient(c)).next;
    forall x: ClientWs, d: DaemonId, r: Rid | BoundTo(h, x, d, r) && x != c ensures BoundTo(k, x, d, r) {
      assert TheBind(h, d, r).client == x;
      assert !BoundTo(h, c, d, r);
    }
  }

  // ---------------------------------------------------------------- forwarding

  // Where a client's FWD goes, whatever route id it wrote, and under which id.
  ghost function ForwardUp(h: State, c: ClientWs): Option<(DaemonWs, Rid)> {
    if c !in h.clients || h.clients[c].bind == None || h.clients[c].daemon == None
       || h.clients[c].daemon.value !in h.daemons || h.daemons[h.clients[c].daemon.value].conn == None
    then None
    else Some((h.daemons[h.clients[c].daemon.value].conn.value, h.clients[c].bind.value))
  }

  // Where a daemon's FWD for a route goes.
  ghost function ForwardDown(h: State, conn: DaemonWs, r: Rid): Option<ClientWs> {
    match OwnerOf(h, conn)
    case None => None
    case Some(d) => if BindAt(h, d, r) then Some(TheBind(h, d, r).client) else None
  }

  // The two directions are inverse to each other: a daemon that answers on the route a
  // frame came in by reaches the client that sent it and no other, and the other way round.
  lemma ForwardingIsExact(h: State, c: ClientWs, conn: DaemonWs, r: Rid)
    requires Inv(h)
    ensures ForwardUp(h, c) == Some((conn, r)) <==> ForwardDown(h, conn, r) == Some(c)
  {
    hide SlotsOk, Caps;
    OwnerIs(h, conn);
    if ForwardUp(h, c) == Some((conn, r)) {
      var d := h.clients[c].daemon.value;
      assert BoundTo(h, c, d, r);
      assert Owns(h, d, OwnerOf(h, conn).value);
    }
    if ForwardDown(h, conn, r) == Some(c) {
      assert BoundTo(h, c, OwnerOf(h, conn).value, r);
    }
  }

  // A client whose state stays in the table keeps the mode it once attached with.
  ghost predicate Present(h: State, events: seq<Event>, c: ClientWs)
    decreases |events|
  {
    c in h.clients && (events == [] || Present(Step(h, events[0]).next, events[1..], c))
  }

  lemma {:induction false} ModeIsForever(h: State, events: seq<Event>, c: ClientWs)
    requires Inv(h) && FairRun(h, events) && Present(h, events, c) && h.clients[c].mode != NoMode
    ensures c in Run(h, events).clients && Run(h, events).clients[c].mode == h.clients[c].mode
    decreases |events|
  {
    hide Inv, Step, Fair;
    if events != [] {
      StepKeeps(h, events[0]);
      ModeIsForever(Step(h, events[0]).next, events[1..], c);
    }
  }
}
