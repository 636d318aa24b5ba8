/**
  The relay hub: daemons, clients, binds and pairing slots that refer to each other, and the
  one invariant every frame handler, timer and failed send keeps.

  A bind is known by its daemon and its route id, which is what the source's bind pointers
  come down to as long as random route ids do not repeat among live binds.
 */
module Hub {
  import opened Basics

  type ClientWs = nat
  type DaemonWs = nat
  type DaemonId = string
  type Ref = string
  type Token = string

  // Route ids are sixteen bytes; 0 stands for the all-zero id.
  type Rid = nat

  datatype Kind = Pairing | ResumeHello | Established
  datatype Mode = NoMode | PairingMode | SessionMode

  datatype Bind = Bind(client: ClientWs, kind: Kind, created: int, pairFrames: nat)
  datatype Slot = Slot(bind: Option<Rid>, deadline: int)
  datatype Daemon = Daemon(conn: Option<DaemonWs>, binds: map<Rid, Bind>, slots: map<Ref, Slot>)
  datatype Client = Client(daemon: Option<DaemonId>, bind: Option<Rid>, mode: Mode, hello: bool, helloAt: int)

  datatype State = State(
    daemons: map<DaemonId, Daemon>, clients: map<ClientWs, Client>, reconnect: map<Token, DaemonId>)

  const MAX_RESUME := 2
  const MAX_ESTABLISHED := 10

  // ---------------------------------------------------------------- the invariant

  ghost predicate BindAt(h: State, d: DaemonId, r: Rid) {
    d in h.daemons && r in h.daemons[d].binds
  }

  ghost function TheBind(h: State, d: DaemonId, r: Rid): Bind
    requires BindAt(h, d, r)
  {
    h.daemons[d].binds[r]
  }

  ghost predicate BoundTo(h: State, c: ClientWs, d: DaemonId, r: Rid) {
    c in h.clients && h.clients[c].daemon == Some(d) && h.clients[c].bind == Some(r)
  }

  ghost predicate Fits(kind: Kind, mode: Mode) {
    mode == if kind == Pairing then PairingMode else SessionMode
  }

  // Binds and client states point at each other.
  ghost predicate Linked(h: State) {
    && (forall d, r :: BindAt(h, d, r) ==>
          && BoundTo(h, TheBind(h, d, r).client, d, r)
          && Fits(TheBind(h, d, r).kind, h.clients[TheBind(h, d, r).client].mode))
    && (forall c :: c in h.clients ==> (h.clients[c].daemon.Some? <==> h.clients[c].bind.Some?))
    && (forall c, d, r :: BoundTo(h, c, d, r) ==> BindAt(h, d, r) && TheBind(h, d, r).client == c)
  }

  ghost predicate SlotAt(h: State, d: DaemonId, ref: Ref) {
    d in h.daemons && ref in h.daemons[d].slots
  }

  // A slot's bind is a live pairing bind of the same daemon; there is one slot at most.
  ghost predicate SlotsOk(h: State) {
    && (forall d, ref :: SlotAt(h, d, ref) && h.daemons[d].slots[ref].bind.Some? ==>
          && BindAt(h, d, h.daemons[d].slots[ref].bind.value)
          && TheBind(h, d, h.daemons[d].slots[ref].bind.value).kind == Pairing)
    && (forall d, ref, d', ref' :: SlotAt(h, d, ref) && SlotAt(h, d', ref') ==> d == d' && ref == ref')
  }

  // Two daemons share an owner websocket.
  ghost predicate Owns(h: State, d: DaemonId, d': DaemonId) {
    && d in h.daemons && d' in h.daemons
    && h.daemons[d].conn.Some? && h.daemons[d].conn == h.daemons[d'].conn
  }

  // An offline daemon has nothing, and no websocket owns two daemons.
  ghost predicate Conns(h: State) {
    && (forall d :: d in h.daemons && h.daemons[d].conn == None ==>
          h.daemons[d].binds == map[] && h.daemons[d].slots == map[])
    && (forall d, d' :: Owns(h, d, d') ==> d == d')
  }

  ghost function OfKind(d: Daemon, kind: Kind): set<Rid> {
    set r | r in d.binds && d.binds[r].kind == kind
  }

  ghost predicate Caps(h: State) {
    forall d :: d in h.daemons ==>
      |OfKind(h.daemons[d], ResumeHello)| <= MAX_RESUME && |OfKind(h.daemons[d], Established)| <= MAX_ESTABLISHED
  }

  ghost predicate Inv(h: State) {
    Linked(h) && SlotsOk(h) && Conns(h) && Caps(h)
  }

  // A client keeps its mode for as long as its state is in the table.
  ghost predicate ModesStick(h: State, k: State) {
    forall c :: c in h.clients && c in k.clients && h.clients[c].mode != NoMode ==>
      k.clients[c].mode == h.clients[c].mode
  }

  // ---------------------------------------------------------------- taking binds away

  type Where = (DaemonId, Rid)

  ghost function Freed(d: DaemonId, s: Slot, gone: set<Where>): Slot {
    if s.bind.Some? && (d, s.bind.value) in gone then s.(bind := None) else s
  }

  ghost function Without(id: DaemonId, d: Daemon, gone: set<Where>): Daemon {
    d.(binds := map r | r in d.binds && (id, r) !in gone :: d.binds[r],
       slots := map ref | ref in d.slots :: Freed(id, d.slots[ref], gone))
  }

  ghost function Loose(c: Client, gone: set<Where>): Client {
    if c.daemon.Some? && c.bind.Some? && (c.daemon.value, c.bind.value) in gone
    then c.(daemon := None, bind := None)
    else c
  }

  // unbindLocked, for any set of binds: they leave their daemons, and the slots and client
  // states that pointed at them are cleared.
  ghost function Release(h: State, gone: set<Where>): State {
    h.(daemons := map d | d in h.daemons :: Without(d, h.daemons[d], gone),
       clients := map c | c in h.clients :: Loose(h.clients[c], gone))
  }

  lemma ReleaseLinked(h: State, gone: set<Where>)
    requires Linked(h)
    ensures Linked(Release(h, gone))
    ensures forall d: DaemonId, r: Rid :: BindAt(Release(h, gone), d, r) <==> BindAt(h, d, r) && (d, r) !in gone
    ensures forall d: DaemonId, r: Rid :: BindAt(Release(h, gone), d, r) ==>
        TheBind(Release(h, gone), d, r) == TheBind(h, d, r)
  {
    var k := Release(h, gone);
    forall d, r | BindAt(k, d, r)
      ensures BoundTo(k, TheBind(k, d, r).client, d, r)
      ensures Fits(TheBind(k, d, r).kind, k.clients[TheBind(k, d, r).client].mode)
    {
      assert BindAt(h, d, r);
    }
    forall c, d, r | BoundTo(k, c, d, r) ensures BindAt(k, d, r) && TheBind(k, d, r).client == c {
      assert BoundTo(h, c, d, r);
    }
  }

  lemma ReleaseRest(h: State, gone: set<Where>)
    requires Inv(h)
    ensures SlotsOk(Release(h, gone)) && Conns(Release(h, gone)) && ModesStick(h, Release(h, gone))
  {
    hide Linked, Caps;
    var k := Release(h, gone);
    forall d, ref | SlotAt(k, d, ref) && k.daemons[d].slots[ref].bind.Some?
      ensures BindAt(k, d, k.daemons[d].slots[ref].bind.value)
      ensures TheBind(k, d, k.daemons[d].slots[ref].bind.value).kind == Pairing
    {
      assert SlotAt(h, d, ref);
    }
    forall d, ref, d', ref' | SlotAt(k, d, ref) && SlotAt(k, d', ref') ensures d == d' && ref == ref' {
      assert SlotAt(h, d, ref) && SlotAt(h, d', ref');
    }
    forall d, d' | Owns(k, d, d') ensures d == d' {
      assert Owns(h, d, d');
    }
  }

  lemma ReleaseCaps(h: State, gone: set<Where>)
    requires Inv(h)
    ensures Caps(Release(h, gone))
  {
    hide Linked, SlotsOk, Conns;
    var k := Release(h, gone);
    forall d | d in k.daemons
      ensures |OfKind(k.daemons[d], ResumeHello)| <= MAX_RESUME
          && |OfKind(k.daemons[d], Established)| <= MAX_ESTABLISHED
    {
      Subset(OfKind(k.daemons[d], ResumeHello), OfKind(h.daemons[d], ResumeHello));
      Subset(OfKind(k.daemons[d], Established), OfKind(h.daemons[d], Established));
    }
  }

  ghost predicate Kept(h: State, k: State) {
    Inv(k) && ModesStick(h, k)
  }

  lemma ReleaseKeeps(h: State, gone: set<Where>)
    requires Inv(h)
    ensures Kept(h, Release(h, gone))
  {
    hide Linked, SlotsOk, Conns, Caps, ModesStick;
    ReleaseLinked(h, gone);
    ReleaseRest(h, gone);
    ReleaseCaps(h, gone);
  }

  lemma ReleaseTwice(h: State, a: set<Where>, b: set<Where>)
    ensures Release(Release(h, a), b) == Release(h, a + b)
  {
    var k, m := Release(Release(h, a), b), Release(h, a + b);
    assert k.daemons == m.daemons by {
      forall d | d in h.daemons ensures k.daemons[d] == m.daemons[d] {
        WithoutTwice(d, h.daemons[d], a, b);
      }
    }
    assert k.clients == m.clients;
  }

  lemma WithoutTwice(id: DaemonId, d: Daemon, a: set<Where>, b: set<Where>)
    ensures Without(id, Without(id, d, a), b) == Without(id, d, a + b)
  {
    assert Without(id, Without(id, d, a), b).binds == Without(id, d, a + b).binds;
    assert Without(id, Without(id, d, a), b).slots == Without(id, d, a + b).slots;
  }

  // ---------------------------------------------------------------- adding and changing binds

  // A client is tied to a new bind of a daemon.
  ghost function AddBind(h: State, c: ClientWs, d: DaemonId, r: Rid, b: Bind, mode: Mode): State
    requires c in h.clients && d in h.daemons
  {
    h.(daemons := h.daemons[d := h.daemons[d].(binds := h.daemons[d].binds[r := b])],
       clients := h.clients[c := h.clients[c].(daemon := Some(d), bind := Some(r), mode := mode)])
  }

  ghost predicate MayAdd(h: State, c: ClientWs, d: DaemonId, r: Rid, b: Bind, mode: Mode) {
    && c in h.clients && d in h.daemons && h.daemons[d].conn.Some?
    && h.clients[c].bind == None && h.clients[c].mode == NoMode
    && (forall e: DaemonId :: !BindAt(h, e, r))
    && b.client == c && Fits(b.kind, mode) && b.kind != Established
    && (b.kind == ResumeHello ==> |OfKind(h.daemons[d], ResumeHello)| < MAX_RESUME)
  }

  lemma AddLinked(h: State, c: ClientWs, d: DaemonId, r: Rid, b: Bind, mode: Mode)
    requires Linked(h) && MayAdd(h, c, d, r, b, mode)
    ensures Linked(AddBind(h, c, d, r, b, mode))
  {
    var k := AddBind(h, c, d, r, b, mode);
    forall e: DaemonId, q: Rid | BindAt(k, e, q)
      ensures BoundTo(k, TheBind(k, e, q).client, e, q)
      ensures Fits(TheBind(k, e, q).kind, k.clients[TheBind(k, e, q).client].mode)
    {
      if e != d || q != r {
        assert BindAt(h, e, q) && BoundTo(h, TheBind(h, e, q).client, e, q);
      }
    }
    forall x: ClientWs, e: DaemonId, q: Rid | BoundTo(k, x, e, q)
      ensures BindAt(k, e, q) && TheBind(k, e, q).client == x
    {
      if x != c {
        assert BoundTo(h, x, e, q) && BindAt(h, e, q);
      }
    }
  }

  lemma AddRest(h: State, c: ClientWs, d: DaemonId, r: Rid, b: Bind, mode: Mode)
    requires Inv(h) && MayAdd(h, c, d, r, b, mode)
    ensures var k := AddBind(h, c, d, r, b, mode); SlotsOk(k) && Conns(k) && ModesStick(h, k)
  {
    hide Linked, Caps;
    var k := AddBind(h, c, d, r, b, mode);
    forall e, ref | SlotAt(k, e, ref) && k.daemons[e].slots[ref].bind.Some?
      ensures BindAt(k, e, k.daemons[e].slots[ref].bind.value)
      ensures TheBind(k, e, k.daemons[e].slots[ref].bind.value).kind == Pairing
    {
      assert SlotAt(h, e, ref);
      assert !BindAt(h, e, r);
    }
    forall e, ref, e', ref' | SlotAt(k, e, ref) && SlotAt(k, e', ref') ensures e == e' && ref == ref' {
      assert SlotAt(h, e, ref) && SlotAt(h, e', ref');
    }
    forall e, e' | Owns(k, e, e') ensures e == e' {
      assert Owns(h, e, e');
    }
  }

  lemma AddCaps(h: State, c: ClientWs, d: DaemonId, r: Rid, b: Bind, mode: Mode)
    requires Inv(h) && MayAdd(h, c, d, r, b, mode)
    ensures Caps(AddBind(h, c, d, r, b, mode))
  {
    hide Linked, SlotsOk, Conns;
    var k := AddBind(h, c, d, r, b, mode);
    assert OfKind(k.daemons[d], Established) <= OfKind(h.daemons[d], Established);
    Subset(OfKind(k.daemons[d], Established), OfKind(h.daemons[d], Established));
    if b.kind == ResumeHello {
      assert OfKind(k.daemons[d], ResumeHello) == OfKind(h.daemons[d], ResumeHello) + {r};
    } else {
      Subset(OfKind(k.daemons[d], ResumeHello), OfKind(h.daemons[d], ResumeHello));
    }
  }

  lemma AddKeeps(h: State, c: ClientWs, d: DaemonId, r: Rid, b: Bind, mode: Mode)
    requires Inv(h) && MayAdd(h, c, d, r, b, mode)
    ensures Kept(h, AddBind(h, c, d, r, b, mode))
  {
    hide Linked, SlotsOk, Conns, Caps, ModesStick, AddBind;
    assert c in h.clients && d in h.daemons;
    hide MayAdd;
    AddLinked(h, c, d, r, b, mode);
    AddRest(h, c, d, r, b, mode);
    AddCaps(h, c, d, r, b, mode);
  }

  // A bind that stays where it is changes its kind or its frame count.
  ghost function SetBind(h: State, d: DaemonId, r: Rid, b: Bind): State
    requires BindAt(h, d, r)
  {
    h.(daemons := h.daemons[d := h.daemons[d].(binds := h.daemons[d].binds[r := b])])
  }

  ghost predicate MaySet(h: State, d: DaemonId, r: Rid, b: Bind) {
    && BindAt(h, d, r) && b.client == TheBind(h, d, r).client
    && (b.kind == TheBind(h, d, r).kind
        || (TheBind(h, d, r).kind == ResumeHello && b.kind == Established
            && |OfKind(h.daemons[d], Established)| < MAX_ESTABLISHED))
  }

  lemma SetBindKeeps(h: State, d: DaemonId, r: Rid, b: Bind)
    requires Inv(h) && MaySet(h, d, r, b)
    ensures Kept(h, SetBind(h, d, r, b))
  {
    hide Linked, SlotsOk, Conns, Caps;
    SetBindLinked(h, d, r, b);
    SetBindRest(h, d, r, b);
    SetBindCaps(h, d, r, b);
  }

  lemma SetBindLinked(h: State, d: DaemonId, r: Rid, b: Bind)
    requires Linked(h) && MaySet(h, d, r, b)
    ensures Linked(SetBind(h, d, r, b))
  {
    var k := SetBind(h, d, r, b);
    forall e: DaemonId, q: Rid | BindAt(k, e, q)
      ensures BoundTo(k, TheBind(k, e, q).client, e, q)
      ensures Fits(TheBind(k, e, q).kind, k.clients[TheBind(k, e, q).client].mode)
    {
      assert BindAt(h, e, q) && BoundTo(h, TheBind(h, e, q).client, e, q);
    }
    forall x: ClientWs, e: DaemonId, q: Rid | BoundTo(k, x, e, q)
      ensures BindAt(k, e, q) && TheBind(k, e, q).client == x
    {
      assert BoundTo(h, x, e, q) && BindAt(h, e, q);
    }
  }

  lemma SetBindRest(h: State, d: DaemonId, r: Rid, b: Bind)
    requires Inv(h) && MaySet(h, d, r, b)
    ensures SlotsOk(SetBind(h, d, r, b)) && Conns(SetBind(h, d, r, b))
  {
    hide Linked, Caps;
    var k := SetBind(h, d, r, b);
    forall e, ref | SlotAt(k, e, ref) && k.daemons[e].slots[ref].bind.Some?
      ensures BindAt(k, e, k.daemons[e].slots[ref].bind.value)
      ensures TheBind(k, e, k.daemons[e].slots[ref].bind.value).kind == Pairing
    {
      assert SlotAt(h, e, ref);
    }
    forall e, ref, e', ref' | SlotAt(k, e, ref) && SlotAt(k, e', ref') ensures e == e' && ref == ref' {
      assert SlotAt(h, e, ref) && SlotAt(h, e', ref');
    }
    forall e, e' | Owns(k, e, e') ensures e == e' {
      assert Owns(h, e, e');
    }
  }

  lemma SetBindCaps(h: State, d: DaemonId, r: Rid, b: Bind)
    requires Inv(h) && MaySet(h, d, r, b)
    ensures Caps(SetBind(h, d, r, b))
  {
    hide Linked, SlotsOk, Conns;
    var k := SetBind(h, d, r, b);
    if b.kind == TheBind(h, d, r).kind {
      assert OfKind(k.daemons[d], Established) == OfKind(h.daemons[d], Established);
      assert OfKind(k.daemons[d], ResumeHello) == OfKind(h.daemons[d], ResumeHello);
    } else {
      assert OfKind(k.daemons[d], Established) == OfKind(h.daemons[d], Established) + {r};
      assert OfKind(k.daemons[d], ResumeHello) == OfKind(h.daemons[d], ResumeHello) - {r};
    }
  }

  // ---------------------------------------------------------------- slots, connections, clients

  ghost function SetSlots(h: State, d: DaemonId, slots: map<Ref, Slot>): State
    requires d in h.daemons
  {
    h.(daemons := h.daemons[d := h.daemons[d].(slots := slots)])
  }

  // The slots of one daemon may become any part of what they were, or one new slot when
  // nobody has any.
  ghost predicate MaySlot(h: State, d: DaemonId, slots: map<Ref, Slot>) {
    && d in h.daemons && (slots == map[] || h.daemons[d].conn.Some?)
    && (forall ref :: ref in slots && slots[ref].bind.Some? ==>
          BindAt(h, d, slots[ref].bind.value) && TheBind(h, d, slots[ref].bind.value).kind == Pairing)
    && (slots.Keys <= h.daemons[d].slots.Keys
        || (|slots| == 1 && forall e, ref :: !SlotAt(h, e, ref)))
  }

  lemma SetSlotsKeeps(h: State, d: DaemonId, slots: map<Ref, Slot>)
    requires Inv(h) && MaySlot(h, d, slots)
    ensures Kept(h, SetSlots(h, d, slots))
  {
    hide Linked, Caps;
    var k := SetSlots(h, d, slots);
    SetSlotsLinked(h, d, slots);
    forall e, ref | SlotAt(k, e, ref) && k.daemons[e].slots[ref].bind.Some?
      ensures BindAt(k, e, k.daemons[e].slots[ref].bind.value)
      ensures TheBind(k, e, k.daemons[e].slots[ref].bind.value).kind == Pairing
    {
      assert e != d ==> SlotAt(h, e, ref);
    }
    forall e, ref, e', ref' | SlotAt(k, e, ref) && SlotAt(k, e', ref') ensures e == e' && ref == ref' {
      SetSlotsUnique(h, d, slots, e, ref, e', ref');
    }
    forall e, e' | Owns(k, e, e') ensures e == e' {
      assert Owns(h, e, e');
    }
  }

  lemma SetSlotsUnique(h: State, d: DaemonId, slots: map<Ref, Slot>, e: DaemonId, ref: Ref, e': DaemonId, ref': Ref)
    requires Inv(h) && MaySlot(h, d, slots)
    requires SlotAt(SetSlots(h, d, slots), e, ref) && SlotAt(SetSlots(h, d, slots), e', ref')
    ensures e == e' && ref == ref'
  {
    hide Linked, Caps, Conns;
    if slots.Keys <= h.daemons[d].slots.Keys {
      assert SlotAt(h, e, ref) && SlotAt(h, e', ref');
    } else {
      assert (e != d ==> SlotAt(h, e, ref)) && (e' != d ==> SlotAt(h, e', ref'));
      Single(slots.Keys, ref, ref');
    }
  }

  lemma Single<T>(s: set<T>, a: T, b: T)
    requires |s| == 1 && a in s && b in s
    ensures a == b
  {
    if a != b {
      Subset({a, b}, s);
    }
  }

  lemma SetSlotsLinked(h: State, d: DaemonId, slots: map<Ref, Slot>)
    requires Inv(h) && MaySlot(h, d, slots)
    ensures Linked(SetSlots(h, d, slots)) && Caps(SetSlots(h, d, slots))
  {
    hide SlotsOk, Conns;
    var k := SetSlots(h, d, slots);
    forall e: DaemonId, q: Rid | BindAt(k, e, q)
      ensures BoundTo(k, TheBind(k, e, q).client, e, q)
      ensures Fits(TheBind(k, e, q).kind, k.clients[TheBind(k, e, q).client].mode)
    {
      assert BindAt(h, e, q) && BoundTo(h, TheBind(h, e, q).client, e, q);
    }
    forall x: ClientWs, e: DaemonId, q: Rid | BoundTo(k, x, e, q)
      ensures BindAt(k, e, q) && TheBind(k, e, q).client == x
    {
      assert BoundTo(h, x, e, q) && BindAt(h, e, q);
    }
    assert OfKind(k.daemons[d], ResumeHello) == OfKind(h.daemons[d], ResumeHello);
    assert OfKind(k.daemons[d], Established) == OfKind(h.daemons[d], Established);
  }

  // A daemon entry with nothing in it, online or not.
  ghost function SetEmpty(h: State, d: DaemonId, conn: Option<DaemonWs>): State {
    h.(daemons := h.daemons[d := Daemon(conn, map[], map[])])
  }

  lemma SetEmptyKeeps(h: State, d: DaemonId, conn: Option<DaemonWs>)
    requires Inv(h) && forall r: Rid :: !BindAt(h, d, r)
    requires conn.Some? ==> forall e :: e in h.daemons ==> h.daemons[e].conn != conn
    ensures Kept(h, SetEmpty(h, d, conn))
  {
    var k := SetEmpty(h, d, conn);
    forall e: DaemonId, q: Rid ensures BindAt(k, e, q) ==> BindAt(h, e, q) && TheBind(k, e, q) == TheBind(h, e, q) {
      assert !BindAt(h, d, q);
    }
    forall x: ClientWs, e: DaemonId, q: Rid | BoundTo(k, x, e, q)
      ensures BindAt(k, e, q) && TheBind(k, e, q).client == x
    {
      assert BoundTo(h, x, e, q) && BindAt(h, e, q);
    }
    forall e, ref
      ensures SlotAt(k, e, ref) ==> SlotAt(h, e, ref) && k.daemons[e].slots[ref] == h.daemons[e].slots[ref] && e != d
    {
    }
    forall e, e' | Owns(k, e, e') ensures e == e' {
      assert e != d && e' != d ==> Owns(h, e, e');
    }
    assert OfKind(k.daemons[d], ResumeHello) == {} && OfKind(k.daemons[d], Established) == {};
  }
}
