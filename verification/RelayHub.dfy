/**
  The hub as the relay runs it: handlers that update its tables in place and collect the
  frames to flush once the lock is released. Each handler is proved to take the hub one
  step and to queue exactly one closing frame for each client that loses its bind.
 */
module RelayHub {
  import opened Basics
  import opened Hub
  import opened HubSteps

  datatype Typ = ERROR | DAEMON_REPLACED | FWD
  datatype Frame = Frame(typ: Typ, rid: Rid, code: string)
  datatype Send = ToClient(c: ClientWs, f: Frame, close: bool) | ToDaemon(conn: DaemonWs, f: Frame)

  // What a list of pending sends holds for one client.
  ghost function For(pending: seq<Send>, c: ClientWs): seq<Send> {
    if pending == [] then []
    else
      var rest, last := pending[..|pending| - 1], pending[|pending| - 1];
      For(rest, c) + if last.ToClient? && last.c == c then [last] else []
  }

  lemma {:induction false} ForConcat(a: seq<Send>, b: seq<Send>, c: ClientWs)
    ensures For(a + b, c) == For(a, c) + For(b, c)
  {
    if b == [] {
      assert a + b == a;
    } else {
      assert (a + b)[..|a + b| - 1] == a + b[..|b| - 1];
      ForConcat(a, b[..|b| - 1], c);
    }
  }

  ghost predicate Tells(pending: seq<Send>, informed: set<ClientWs>) {
    forall c: ClientWs ::
      && (c in informed ==> |For(pending, c)| == 1 && For(pending, c)[0].ToClient? && For(pending, c)[0].close)
      && (c !in informed ==> For(pending, c) == [])
  }

  lemma TellsMore(a: seq<Send>, b: seq<Send>, x: set<ClientWs>, y: set<ClientWs>)
    requires Tells(a, x) && Tells(b, y) && x !! y
    ensures Tells(a + b, x + y)
  {
    hide For;
    forall c: ClientWs
      ensures c in x + y ==> |For(a + b, c)| == 1 && For(a + b, c)[0].ToClient? && For(a + b, c)[0].close
      ensures c !in x + y ==> For(a + b, c) == []
    {
      ForConcat(a, b, c);
    }
  }

  class RelayHub {
    var daemons: map<DaemonId, Daemon>
    var clients: map<ClientWs, Client>
    var reconnect: map<Token, DaemonId>

    ghost function Abs(): State
      reads this
    {
      State(daemons, clients, reconnect)
    }

    constructor ()
      ensures Abs() == State(map[], map[], map[]) && Inv(Abs())
    {
      daemons, clients, reconnect := map[], map[], map[];
    }

    // unbindLocked: scans the daemon's slots and all client states for the bind.
    method Unbind(d: DaemonId, r: Rid)
      requires d in daemons
      modifies this`daemons, this`clients
      ensures Abs() == Release(old(Abs()), {(d, r)})
    {
      ghost var h := Abs();
      UnbindSlots(d, r);
      assert daemons == Release(h, {(d, r)}).daemons by {
        forall e | e in h.daemons ensures daemons[e] == Without(e, h.daemons[e], {(d, r)}) {
          Untouched(e, h.daemons[e], d, r);
        }
      }
      UnbindClients(d, r);
    }

    method UnbindSlots(d: DaemonId, r: Rid)
      requires d in daemons
      modifies this`daemons
      ensures daemons == old(daemons)[d := Without(d, old(daemons)[d], {(d, r)})]
    {
      var slots := daemons[d].slots;
      var todo := slots.Keys;
      while todo != {}
        invariant slots.Keys == daemons[d].slots.Keys && todo <= slots.Keys
        invariant forall ref :: ref in slots ==>
                    slots[ref] == if ref in todo then daemons[d].slots[ref]
                      else Freed(d, daemons[d].slots[ref], {(d, r)})
        decreases todo
      {
        var ref :| ref in todo;
        if slots[ref].bind == Some(r) {
          slots := slots[ref := slots[ref].(bind := None)];
        }
        todo := todo - {ref};
      }
      assert slots == Without(d, daemons[d], {(d, r)}).slots;
      assert daemons[d].binds - {r} == Without(d, daemons[d], {(d, r)}).binds;
      daemons := daemons[d := daemons[d].(binds := daemons[d].binds - {r}, slots := slots)];
    }

    method UnbindClients(d: DaemonId, r: Rid)
      modifies this`clients
      ensures clients == map c | c in old(clients) :: Loose(old(clients)[c], {(d, r)})
    {
      var todo := clients.Keys;
      while todo != {}
        invariant clients.Keys == old(clients).Keys && todo <= clients.Keys
        invariant forall c :: c in clients ==>
                    clients[c] == if c in todo then old(clients)[c] else Loose(old(clients)[c], {(d, r)})
        decreases todo
      {
        var c :| c in todo;
        if clients[c].daemon == Some(d) && clients[c].bind == Some(r) {
          clients := clients[c := clients[c].(daemon := None, bind := None)];
        }
        todo := todo - {c};
      }
    }

    method QueueCloseBind(d: DaemonId, r: Rid, f: Frame, notifyDaemon: bool) returns (pending: seq<Send>)
      requires BindAt(Abs(), d, r)
      modifies this`daemons, this`clients
      ensures Abs() == Release(old(Abs()), {(d, r)})
      ensures Tells(pending, ClientsOf(old(Abs()), {(d, r)}))
      ensures pending
          == [ToClient(old(daemons)[d].binds[r].client, f, true)] + ToOwner(old(daemons)[d], f, notifyDaemon)
    {
      hide Release;
      var client, daemon := daemons[d].binds[r].client, daemons[d];
      OneClient(Abs(), d, r);
      Unbind(d, r);
      pending := [ToClient(client, f, true)];
      if notifyDaemon && daemon.conn.Some? && f.typ == ERROR && f.rid != 0 {
        pending := pending + [ToDaemon(daemon.conn.value, f)];
      }
      TellsOne(client, f, ToOwner(daemon, f, notifyDaemon));
    }

    // Closes every bind of one daemon: a drop tells every client the same, a replacement
    // names each client's route.
    method CloseDaemonBinds(d: DaemonId, replaced: bool) returns (pending: seq<Send>)
      requires Inv(Abs()) && d in daemons
      modifies this`daemons, this`clients
      ensures Abs() == Release(old(Abs()), AllOf(old(Abs()), d))
      ensures Tells(pending, ClientsOf(old(Abs()), AllOf(old(Abs()), d)))
    {
      hide Inv, Tells, Release;
      ghost var h := Abs();
      ghost var done: set<Where> := {};
      ReleaseIdentity(h);
      TellsNone(h);
      AllReleased(h, done, d);
      pending := [];
      while daemons[d].binds.Keys != {}
        invariant Abs() == Release(h, done) && d in daemons
        invariant done <= AllOf(h, d) && Tells(pending, ClientsOf(h, done))
        invariant daemons[d].binds.Keys == {} <==> done == AllOf(h, d)
        decreases daemons[d].binds.Keys
      {
        var r :| r in daemons[d].binds.Keys;
        var f := if replaced then Frame(DAEMON_REPLACED, r, "") else Frame(ERROR, 0, "daemon_offline");
        var more := QueueCloseBind(d, r, f, false);
        CloseOne(h, done, d, r, pending, more);
        pending := pending + more;
        done := done + {(d, r)};
      }
    }

    method DropDaemonOf(d: DaemonId) returns (pending: seq<Send>)
      requires Inv(Abs()) && d in daemons
      modifies this`daemons, this`clients
      ensures Abs() == DropDaemon(old(Abs()), d).next
      ensures Tells(pending, DropDaemon(old(Abs()), d).informed)
    {
      hide Inv, Tells, Release;
      pending := CloseDaemonBinds(d, false);
      daemons := daemons[d := Daemon(None, map[], map[])];
    }

    method DaemonByConn(conn: DaemonWs) returns (d: Option<DaemonId>)
      requires Inv(Abs())
      ensures d == OwnerOf(Abs(), conn)
    {
      hide Linked, SlotsOk, Caps;
      OwnerIs(Abs(), conn);
      d := None;
      var todo := daemons.Keys;
      while todo != {} && d == None
        invariant todo <= daemons.Keys
        invariant d == None ==> forall e :: e in daemons && e !in todo ==> daemons[e].conn != Some(conn)
        invariant d.Some? ==> IsOwner(Abs(), d.value, conn)
        decreases todo
      {
        var e :| e in todo;
        if daemons[e].conn == Some(conn) { d := Some(e); }
        todo := todo - {e};
      }
      assert d.Some? && OwnerOf(Abs(), conn).Some? ==> Owns(Abs(), d.value, OwnerOf(Abs(), conn).value);
    }

    method CountKinds(d: DaemonId) returns (resume: nat, established: nat)
      requires d in daemons
      ensures resume == |OfKind(daemons[d], ResumeHello)| && established == |OfKind(daemons[d], Established)|
    {
      resume, established := 0, 0;
      var todo := daemons[d].binds.Keys;
      while todo != {}
        invariant todo <= daemons[d].binds.Keys
        invariant resume == |OfKind(daemons[d], ResumeHello) - todo|
        invariant established == |OfKind(daemons[d], Established) - todo|
        decreases todo
      {
        var r :| r in todo;
        CountOne(OfKind(daemons[d], ResumeHello), todo, r);
        CountOne(OfKind(daemons[d], Established), todo, r);
        if daemons[d].binds[r].kind == ResumeHello { resume := resume + 1; }
        if daemons[d].binds[r].kind == Established { established := established + 1; }
        todo := todo - {r};
      }
      assert OfKind(daemons[d], ResumeHello) - {} == OfKind(daemons[d], ResumeHello);
      assert OfKind(daemons[d], Established) - {} == OfKind(daemons[d], Established);
    }

    // The least recently attached bind that is still in its hello exchange.
    method LeastRecent(d: DaemonId) returns (lru: Option<Rid>)
      requires d in daemons
      ensures lru.Some? ==> Oldest(daemons[d], lru.value)
      ensures lru == None <==> OfKind(daemons[d], ResumeHello) == {}
    {
      lru := None;
      var todo := daemons[d].binds.Keys;
      while todo != {}
        invariant todo <= daemons[d].binds.Keys
        invariant lru == None <==> OfKind(daemons[d], ResumeHello) - todo == {}
        invariant lru.Some? ==> lru.value in OfKind(daemons[d], ResumeHello) - todo
        invariant lru.Some? ==> forall r :: r in OfKind(daemons[d], ResumeHello) - todo ==>
                                  daemons[d].binds[lru.value].created <= daemons[d].binds[r].created
        decreases todo
      {
        var r :| r in todo;
        var b := daemons[d].binds[r];
        if b.kind == ResumeHello && (lru == None || b.created < daemons[d].binds[lru.value].created) {
          lru := Some(r);
        }
        assert OfKind(daemons[d], ResumeHello) - (todo - {r})
            == OfKind(daemons[d], ResumeHello) - todo + if b.kind == ResumeHello then {r} else {};
        todo := todo - {r};
      }
      assert OfKind(daemons[d], ResumeHello) - {} == OfKind(daemons[d], ResumeHello);
    }

    // Closes one slot's bind, if any, and deletes the slot.
    method CloseSlot(d: DaemonId, ref: Ref, code: string, notifyDaemon: bool) returns (pending: seq<Send>)
      requires Inv(Abs()) && SlotAt(Abs(), d, ref)
      modifies this`daemons, this`clients
      ensures Abs() == SlotGone(old(Abs()), d, ref).next
      ensures Tells(pending, SlotGone(old(Abs()), d, ref).informed)
    {
      hide Linked, Conns, Caps, Tells, Release;
      ghost var h := Abs();
      pending := [];
      ReleaseIdentity(h);
      TellsNone(h);
      if daemons[d].slots[ref].bind.Some? {
        var r := daemons[d].slots[ref].bind.value;
        pending := QueueCloseBind(d, r, Frame(ERROR, r, code), notifyDaemon);
      }
      SameSlots(h, SlotBind(h, d, ref), d);
      daemons := daemons[d := daemons[d].(slots := daemons[d].slots - {ref})];
    }

    method HandlePairClose(conn: DaemonWs, ref: Ref) returns (pending: seq<Send>)
      requires Inv(Abs())
      modifies this`daemons, this`clients
      ensures Abs() == PairClose(old(Abs()), conn, ref).next
      ensures Tells(pending, PairClose(old(Abs()), conn, ref).informed)
    {
      hide Inv, Tells, SlotGone;
      TellsQuiet([], Abs());
      SlotGoneQuiet(Abs(), ref);
      pending := [];
      OwnerIs(Abs(), conn);
      var d := DaemonByConn(conn);
      if d.Some? && ref in daemons[d.value].slots {
        pending := CloseSlot(d.value, ref, "unpaired", false);
      }
    }

    method SlotExpired(d: DaemonId, ref: Ref) returns (pending: seq<Send>)
      requires Inv(Abs()) && d in daemons
      modifies this`daemons, this`clients
      ensures Abs() == SlotGone(old(Abs()), d, ref).next
      ensures Tells(pending, SlotGone(old(Abs()), d, ref).informed)
    {
      hide Inv, Tells, SlotGone;
      TellsQuiet([], Abs());
      SlotGoneQuiet(Abs(), ref);
      pending := [];
      if ref in daemons[d].slots {
        pending := CloseSlot(d, ref, "unpaired", true);
        if daemons[d].conn.Some? {
          TellsMoreQuiet(pending, [ToDaemon(daemons[d].conn.value, Frame(ERROR, 0, "pairing_expired"))],
            SlotGone(old(Abs()), d, ref).informed);
          pending := pending + [ToDaemon(daemons[d].conn.value, Frame(ERROR, 0, "pairing_expired"))];
        }
      }
    }

    // Every daemon's slot goes, and the phone that used it is told why.
    method ReplaceSlots(d: DaemonId) returns (pending: seq<Send>)
      requires Inv(Abs()) && d in daemons
      modifies this`daemons, this`clients
      ensures Abs() == Unslotted(old(Abs())) && daemons.Keys == old(daemons).Keys
      ensures Tells(pending, ClientsOf(old(Abs()), SlotBinds(old(Abs()))))
    {
      hide Inv, Tells, Unslotted, SlotGone;
      ghost var h := Abs();
      ghost var found := false;
      pending := [];
      TellsNone(h);
      var todo := daemons.Keys;
      while todo != {}
        invariant todo <= daemons.Keys == h.daemons.Keys
        invariant !found ==> Abs() == h && pending == [] && forall e, ref :: SlotAt(h, e, ref) ==> e in todo
        invariant found ==> Abs() == Unslotted(h) && Tells(pending, ClientsOf(h, SlotBinds(h)))
        decreases todo
      {
        var e :| e in todo;
        if found { NoSlots(h); }
        while daemons[e].slots.Keys != {}
          invariant e in daemons && daemons.Keys == h.daemons.Keys
          invariant !found ==> Abs() == h && pending == [] && forall x, ref :: SlotAt(h, x, ref) ==> x in todo
          invariant found ==> Abs() == Unslotted(h) && Tells(pending, ClientsOf(h, SlotBinds(h)))
          invariant found ==> daemons[e].slots.Keys == {}
          decreases daemons[e].slots.Keys
        {
          var ref :| ref in daemons[e].slots.Keys;
          assert !found && SlotAt(h, e, ref);
          pending := CloseSlot(e, ref, "pairing_replaced", true);
          found := true;
          OnlySlot(h, e, ref);
          NoSlots(h);
          if e != d && daemons[e].conn.Some? {
            TellsMoreQuiet(pending, [ToDaemon(daemons[e].conn.value, Frame(ERROR, 0, "pairing_replaced"))],
              ClientsOf(h, SlotBinds(h)));
            pending := pending + [ToDaemon(daemons[e].conn.value, Frame(ERROR, 0, "pairing_replaced"))];
          }
        }
        assert !found ==> forall ref :: !SlotAt(h, e, ref);
        todo := todo - {e};
      }
      if !found { NoSlotAtAll(h); }
    }

    method HandlePairOpen(conn: DaemonWs, id: DaemonId, ref: Ref, deadline: int) returns (pending: seq<Send>)
      requires Inv(Abs())
      modifies this`daemons, this`clients
      ensures Abs() == PairOpen(old(Abs()), conn, id, ref, deadline).next
      ensures Tells(pending, PairOpen(old(Abs()), conn, id, ref, deadline).informed)
    {
      hide Inv, Tells, Unslotted;
      TellsQuiet([], Abs());
      pending := [];
      OwnerIs(Abs(), conn);
      var d := DaemonByConn(conn);
      if d == Some(id) {
        if ref in daemons[id].slots {
          var slot := daemons[id].slots[ref].(deadline := deadline);
          daemons := daemons[id := daemons[id].(slots := daemons[id].slots[ref := slot])];
        } else {
          pending := ReplaceSlots(id);
          NoSlots(old(Abs()));
          daemons := daemons[id := daemons[id].(slots := daemons[id].slots[ref := Slot(None, deadline)])];
        }
      }
    }

    // The search of pairAttach, which deletes an expired slot on its way.
    method FindLiveSlot(want: Option<Ref>, now: int) returns (found: Option<(DaemonId, Ref)>)
      requires Inv(Abs())
      modifies this`daemons
      ensures Abs() == Searched(old(Abs()), want, now).0 && found == Searched(old(Abs()), want, now).1
    {
      hide Inv, Searched;
      ghost var h := Abs();
      ghost var expired := false;
      found := None;
      var todo := daemons.Keys;
      while todo != {} && found == None
        invariant todo <= daemons.Keys == h.daemons.Keys
        invariant !expired && found == None ==> Abs() == h && forall e, ref :: Matches(h, want, e, ref) ==> e in todo
        invariant expired || found.Some? ==> Searched(h, want, now) == (Abs(), found)
        invariant expired ==> forall e, ref :: !Matches(Abs(), want, e, ref)
        decreases todo
      {
        var e :| e in todo;
        var refs := {};
        if daemons[e].conn.Some? {
          refs := if want.Some? then daemons[e].slots.Keys * {want.value} else daemons[e].slots.Keys;
        }
        while refs != {} && found == None
          invariant e in daemons && daemons.Keys == h.daemons.Keys
          invariant forall ref :: ref in refs ==> Matches(Abs(), want, e, ref)
          invariant !expired && found == None ==>
            Abs() == h && forall x, ref :: Matches(h, want, x, ref) ==> x in todo && (x == e ==> ref in refs)
          invariant expired || found.Some? ==> Searched(h, want, now) == (Abs(), found)
          invariant expired ==> forall x, ref :: !Matches(Abs(), want, x, ref)
          decreases refs
        {
          var ref :| ref in refs;
          assert Matches(h, want, e, ref);
          OnlyMatch(h, want, now, e, ref);
          refs := refs - {ref};
          assert forall x :: x in refs ==> Matches(h, want, e, x);
          assert refs == {};
          if now > daemons[e].slots[ref].deadline {
            daemons := daemons[e := daemons[e].(slots := daemons[e].slots - {ref})];
            expired := true;
          } else {
            found := Some((e, ref));
          }
        }
        todo := todo - {e};
      }
      if !expired && found == None { NoMatch(h, want, now); }
    }

    method HandlePairAttach(c: ClientWs, want: Option<Ref>, now: int, r: Rid, entropy: bool)
      requires Inv(Abs()) && Fair(Abs(), EvPairAttach(c, want, now, r, entropy))
      modifies this`daemons, this`clients
      ensures Abs() == PairAttach(old(Abs()), c, want, now, r, entropy).next
    {
      hide Inv, Searched;
      Touch(c);
      var st := clients[c];
      if st.hello && now - st.helloAt <= HELLO_GRACE && st.mode == NoMode && st.bind == None {
        ghost var k := Abs();
        TouchedKeeps(old(Abs()), c);
        SearchedIs(k, want, now);
        var found := FindLiveSlot(want, now);
        if found.Some? && daemons[found.value.0].slots[found.value.1].bind == None && entropy {
          var d, ref := found.value.0, found.value.1;
          var b := Bind(c, Pairing, now, 0);
          var slot := daemons[d].slots[ref].(bind := Some(r));
          var daemon := daemons[d];
          daemons := daemons[d := daemon.(binds := daemon.binds[r := b], slots := daemon.slots[ref := slot])];
          clients := clients[c := st.(daemon := Some(d), bind := Some(r), mode := PairingMode)];
        }
      }
    }

    // The first frame of a client websocket.
    method Touch(c: ClientWs)
      modifies this`clients
      ensures Abs() == Touched(old(Abs()), c)
    {
      if c !in clients {
        clients := clients[c := Client(None, None, NoMode, false, 0)];
      }
    }

    // Takes the route on, evicting the least recent hello exchange when two are open.
    method HandleSessionAttach(c: ClientWs, d: DaemonId, now: int, r: Rid, entropy: bool)
      returns (pending: seq<Send>, ghost lru: Rid)
      requires Inv(Abs()) && forall e: DaemonId :: !BindAt(Abs(), e, r)
      modifies this`daemons, this`clients
      ensures Fair(old(Abs()), EvSessionAttach(c, d, now, r, lru, entropy))
      ensures Abs() == SessionAttach(old(Abs()), c, d, now, r, lru, entropy).next
      ensures Tells(pending, SessionAttach(old(Abs()), c, d, now, r, lru, entropy).informed)
    {
      hide Inv, Tells, Release;
      lru := 0;
      pending := [];
      ReleaseIdentity(Touched(Abs(), c));
      if d in daemons {
        var oldest := LeastRecent(d);
        if oldest.Some? { lru := oldest.value; }
      }
      Touch(c);
      ghost var k := Abs();
      TellsNone(k);
      TellsQuiet([], k);
      TouchedKeeps(old(Abs()), c);
      var st := clients[c];
      if st.hello && now - st.helloAt <= HELLO_GRACE && st.mode == NoMode && st.bind == None
         && d in daemons && daemons[d].conn.Some? {
        var resume, established := CountKinds(d);
        var oldest := LeastRecent(d);
        if resume >= MAX_RESUME && oldest.Some? {
          lru := oldest.value;
          pending := QueueCloseBind(d, oldest.value, Frame(ERROR, oldest.value, "kicked"), true);
        }
        if entropy {
          Unbound(k, Evicted(k, d, lru), c, d);
          daemons := daemons[d := daemons[d].(binds := daemons[d].binds[r := Bind(c, ResumeHello, now, 0)])];
          clients := clients[c := st.(daemon := Some(d), bind := Some(r), mode := SessionMode)];
        }
      }
    }

    method HandleSessionEstablished(conn: DaemonWs, r: Rid) returns (pending: seq<Send>)
      requires Inv(Abs())
      modifies this`daemons, this`clients
      ensures Abs() == SessionEstablished(old(Abs()), conn, r).next
      ensures Tells(pending, SessionEstablished(old(Abs()), conn, r).informed)
    {
      hide Inv, Tells, Release;
      TellsQuiet([], Abs());
      pending := [];
      OwnerIs(Abs(), conn);
      var owner := DaemonByConn(conn);
      if owner.Some? && r in daemons[owner.value].binds && daemons[owner.value].binds[r].kind == ResumeHello {
        var d := owner.value;
        var resume, established := CountKinds(d);
        if established >= MAX_ESTABLISHED {
          pending := QueueCloseBind(d, r, Frame(ERROR, r, "too_many_devices"), true);
        } else {
          var bind := daemons[d].binds[r].(kind := Established);
          daemons := daemons[d := daemons[d].(binds := daemons[d].binds[r := bind])];
        }
      }
    }

    method HandleDaemonError(conn: DaemonWs, r: Rid, f: Frame) returns (pending: seq<Send>)
      requires Inv(Abs())
      modifies this`daemons, this`clients
      ensures Abs() == DaemonError(old(Abs()), conn, r).next
      ensures Tells(pending, DaemonError(old(Abs()), conn, r).informed)
    {
      hide Inv, Tells, Release;
      TellsQuiet([], Abs());
      pending := [];
      OwnerIs(Abs(), conn);
      var d := DaemonByConn(conn);
      if d.Some? && r in daemons[d.value].binds {
        pending := QueueCloseBind(d.value, r, f, false);
      }
    }

    // A join enters the daemon and its token, and takes both back if they cannot be saved.
    method HandleJoin(conn: DaemonWs, id: DaemonId, token: Token, joinOk: bool, persisted: bool)
      requires Inv(Abs()) && id !in daemons && token !in reconnect
      modifies this`daemons, this`reconnect
      ensures Abs() == Join(old(Abs()), conn, id, token, joinOk && persisted).next
    {
      hide Inv;
      var owner := DaemonByConn(conn);
      if owner.Some? || !joinOk { return; }
      daemons := daemons[id := Daemon(Some(conn), map[], map[])];
      reconnect := reconnect[token := id];
      if !persisted {
        reconnect := reconnect - {token};
        daemons := daemons - {id};
        assert reconnect == old(reconnect) && daemons == old(daemons);
      }
    }

    // A reconnect: the previous websocket, if it is still there, loses its binds and slots.
    method HandleReconnect(conn: DaemonWs, id: DaemonId, token: Token) returns (pending: seq<Send>)
      requires Inv(Abs())
      modifies this`daemons, this`clients
      ensures Abs() == Reconnect(old(Abs()), conn, id, token).next
      ensures Tells(pending, Reconnect(old(Abs()), conn, id, token).informed)
    {
      hide Linked, SlotsOk, Caps, Tells, Release;
      TellsQuiet([], Abs());
      TellsNone(Abs());
      ReleaseIdentity(Abs());
      pending := [];
      var owner := DaemonByConn(conn);
      if owner == None && token in reconnect && reconnect[token] == id {
        assert id !in daemons || daemons[id].conn == None ==> AllOf(Abs(), id) == {};
        if id in daemons && daemons[id].conn.Some? {
          SameSlots(Abs(), AllOf(Abs(), id), id);
          pending := CloseDaemonBinds(id, true);
          daemons := daemons[id := daemons[id].(binds := map[], slots := map[])];
        }
        if id !in daemons {
          daemons := daemons[id := Daemon(None, map[], map[])];
        }
        daemons := daemons[id := daemons[id].(conn := Some(conn))];
      }
    }

    method DropClientConn(c: ClientWs) returns (pending: seq<Send>)
      requires Inv(Abs())
      modifies this`daemons, this`clients
      ensures Abs() == DropClient(old(Abs()), c).next
      ensures Tells(pending, {})
    {
      hide SlotsOk, Conns, Caps, Tells, Release;
      ghost var h := Abs();
      TellsQuiet([], h);
      ReleaseIdentity(h);
      pending := [];
      if c in clients {
        if clients[c].bind.Some? {
          var d, r := clients[c].daemon.value, clients[c].bind.value;
          assert BoundTo(h, c, d, r);
          var owner := daemons[d].conn;
          Unbind(d, r);
          if owner.Some? {
            pending := [ToDaemon(owner.value, Frame(ERROR, r, "unpaired"))];
            TellsQuiet(pending, h);
          }
        }
        clients := clients - {c};
      }
    }

    method DropDaemonConn(conn: DaemonWs) returns (pending: seq<Send>)
      requires Inv(Abs())
      modifies this`daemons, this`clients
      ensures Abs() == Step(old(Abs()), EvDropDaemonWs(conn)).next
      ensures Tells(pending, Step(old(Abs()), EvDropDaemonWs(conn)).informed)
    {
      hide Inv, Tells, Release;
      TellsQuiet([], Abs());
      pending := [];
      OwnerIs(Abs(), conn);
      var d := DaemonByConn(conn);
      if d.Some? { pending := DropDaemonOf(d.value); }
    }

    // The frame leaves under the bind's own route id, whatever the client wrote.
    method HandleFwdFromClient(c: ClientWs) returns (sent: Option<(DaemonWs, Rid)>)
      requires Inv(Abs())
      modifies this`daemons, this`clients
      ensures Abs() == FwdFromClient(old(Abs()), c).next
      ensures sent == ForwardUp(old(Abs()), c)
    {
      hide SlotsOk, Conns, Caps;
      Touch(c);
      TouchedLinks(old(Abs()), c);
      sent := None;
      var st := clients[c];
      assert st.bind.Some? && st.daemon.Some? ==> BoundTo(old(Abs()), c, st.daemon.value, st.bind.value);
      if st.bind.Some? && st.daemon.Some? && daemons[st.daemon.value].conn.Some? {
        var d, r := st.daemon.value, st.bind.value;
        if daemons[d].binds[r].kind == Pairing {
          var b := daemons[d].binds[r];
          daemons := daemons[d := daemons[d].(binds := daemons[d].binds[r := b.(pairFrames := b.pairFrames + 1)])];
        }
        sent := Some((daemons[d].conn.value, r));
      }
    }

    method HandleFwdFromDaemon(conn: DaemonWs, r: Rid) returns (sent: Option<ClientWs>)
      requires Inv(Abs())
      ensures sent == ForwardDown(Abs(), conn, r)
    {
      hide Inv;
      OwnerIs(Abs(), conn);
      sent := None;
      var d := DaemonByConn(conn);
      if d.Some? && r in daemons[d.value].binds {
        sent := Some(daemons[d.value].binds[r].client);
      }
    }
  }

  lemma Unbound(k: State, gone: set<Where>, c: ClientWs, d: DaemonId)
    requires c in k.clients && k.clients[c].bind == None && d in k.daemons
    ensures c in Release(k, gone).clients && Release(k, gone).clients[c] == k.clients[c]
    ensures d in Release(k, gone).daemons
  {
  }

  // Where a search ends: the state it leaves and the slot it found.
  ghost function Searched(h: State, want: Option<Ref>, now: int): (State, Option<(DaemonId, Ref)>) {
    match FindSlot(h, want)
    case None => (h, None)
    case Some(at) =>
      if !SlotAt(h, at.0, at.1) then (h, None)
      else if now > h.daemons[at.0].slots[at.1].deadline
      then (SetSlots(h, at.0, h.daemons[at.0].slots - {at.1}), None)
      else (h, Some(at))
  }

  lemma SearchedIs(h: State, want: Option<Ref>, now: int)
    ensures Searched(h, want, now).1.Some? ==>
              && Searched(h, want, now) == (h, FindSlot(h, want))
              && Matches(h, want, FindSlot(h, want).value.0, FindSlot(h, want).value.1)
    ensures FindSlot(h, want).Some? ==> SlotAt(h, FindSlot(h, want).value.0, FindSlot(h, want).value.1)
    ensures FindSlot(h, want).Some? ==>
              Searched(h, want, now) ==
              var at := FindSlot(h, want).value;
              if now > h.daemons[at.0].slots[at.1].deadline
              then (SetSlots(h, at.0, h.daemons[at.0].slots - {at.1}), None) else (h, Some(at))
    ensures FindSlot(h, want) == None ==> Searched(h, want, now) == (h, None)
  {
  }

  lemma OnlyMatch(h: State, want: Option<Ref>, now: int, d: DaemonId, ref: Ref)
    requires Inv(h) && Matches(h, want, d, ref)
    ensures FindSlot(h, want) == Some((d, ref))
    ensures Searched(h, want, now) == if now > h.daemons[d].slots[ref].deadline
                                      then (SetSlots(h, d, h.daemons[d].slots - {ref}), None) else (h, Some((d, ref)))
    ensures forall e, x :: Matches(h, want, e, x) ==> e == d && x == ref
    ensures forall e, x :: !Matches(SetSlots(h, d, h.daemons[d].slots - {ref}), want, e, x)
  {
    hide Linked, Conns, Caps;
    forall e, x | Matches(h, want, e, x) ensures e == d && x == ref {
      assert SlotAt(h, e, x);
    }
    var k := SetSlots(h, d, h.daemons[d].slots - {ref});
    assert forall e, x :: Matches(k, want, e, x) ==> Matches(h, want, e, x);
  }

  lemma NoMatch(h: State, want: Option<Ref>, now: int)
    requires forall d, ref :: !Matches(h, want, d, ref)
    ensures Searched(h, want, now) == (h, None)
  {
  }

  lemma NoSlots(h: State)
    ensures Unslotted(h).daemons.Keys == h.daemons.Keys
    ensures forall d :: d in h.daemons ==> Unslotted(h).daemons[d].slots == map[]
  {
  }

  lemma OnlySlot(h: State, d: DaemonId, ref: Ref)
    requires Inv(h) && SlotAt(h, d, ref)
    ensures SlotGone(h, d, ref).next == Unslotted(h)
    ensures SlotGone(h, d, ref).informed == ClientsOf(h, SlotBinds(h))
  {
    hide Linked, Conns, Caps;
    OneSlotBinds(h, d, ref);
    var k := Release(h, SlotBinds(h));
    assert SlotGone(h, d, ref).next.daemons == Unslotted(h).daemons by {
      forall e | e in h.daemons ensures SlotGone(h, d, ref).next.daemons[e] == Unslotted(h).daemons[e] {
        OtherSlots(h, d, ref, e);
      }
    }
  }

  lemma OtherSlots(h: State, d: DaemonId, ref: Ref, e: DaemonId)
    requires SlotsOk(h) && SlotAt(h, d, ref) && e in h.daemons
    ensures var k := Release(h, SlotBinds(h));
      && (e != d ==> k.daemons[e].slots == map[])
      && k.daemons[d].slots - {ref} == map[]
  {
    var k := Release(h, SlotBinds(h));
    forall x | x in k.daemons[e].slots ensures e == d && x == ref {
      assert SlotAt(h, e, x);
    }
    forall x | x in k.daemons[d].slots ensures x == ref {
      assert SlotAt(h, d, x);
    }
    assert e != d ==> k.daemons[e].slots.Keys == {};
    assert k.daemons[d].slots.Keys == {ref};
  }

  lemma NoSlotAtAll(h: State)
    requires forall d, ref :: !SlotAt(h, d, ref)
    ensures Unslotted(h) == h && SlotBinds(h) == {}
  {
    assert SlotBinds(h) == {} by {
      forall d, ref | d in h.daemons && ref in h.daemons[d].slots ensures false {
        assert SlotAt(h, d, ref);
      }
    }
    ReleaseIdentity(h);
    forall d | d in h.daemons ensures h.daemons[d].(slots := map[]) == h.daemons[d] {
      assert forall ref :: ref in h.daemons[d].slots ==> SlotAt(h, d, ref);
      assert h.daemons[d].slots == map[];
    }
    assert Unslotted(h).daemons == h.daemons;
  }

  lemma SlotGoneQuiet(h: State, ref: Ref)
    ensures forall d :: !SlotAt(h, d, ref) ==> SlotGone(h, d, ref) == Quiet(h)
    ensures forall d :: SlotAt(h, d, ref) ==> d in SlotGone(h, d, ref).next.daemons
  {
  }

  lemma TellsQuiet(a: seq<Send>, h: State)
    requires forall i :: 0 <= i < |a| ==> a[i].ToDaemon?
    ensures Tells(a, Quiet(h).informed)
  {
    forall c: ClientWs ensures For(a, c) == [] {
      NoneFor(a, c);
    }
  }

  lemma {:induction false} NoneFor(a: seq<Send>, c: ClientWs)
    requires forall i :: 0 <= i < |a| ==> a[i].ToDaemon?
    ensures For(a, c) == []
  {
    if a != [] { NoneFor(a[..|a| - 1], c); }
  }

  lemma TellsMoreQuiet(a: seq<Send>, b: seq<Send>, x: set<ClientWs>)
    requires Tells(a, x) && forall i :: 0 <= i < |b| ==> b[i].ToDaemon?
    ensures Tells(a + b, x)
  {
    forall c: ClientWs ensures For(a + b, c) == For(a, c) {
      ForConcat(a, b, c);
      NoneFor(b, c);
    }
  }

  lemma SameSlots(h: State, gone: set<Where>, d: DaemonId)
    requires d in h.daemons
    ensures d in Release(h, gone).daemons
    ensures Release(h, gone).daemons[d].slots.Keys == h.daemons[d].slots.Keys
  {
  }

  lemma CountOne(all: set<Rid>, todo: set<Rid>, r: Rid)
    requires r in todo
    ensures |all - (todo - {r})| == |all - todo| + if r in all then 1 else 0
  {
    assert all - (todo - {r}) == all - todo + if r in all then {r} else {};
  }

  // The copy of a closing error that goes to the daemon's websocket.
  ghost function ToOwner(daemon: Daemon, f: Frame, notify: bool): seq<Send> {
    if notify && daemon.conn.Some? && f.typ == ERROR && f.rid != 0 then [ToDaemon(daemon.conn.value, f)] else []
  }

  lemma TellsNone(h: State)
    ensures Tells([], ClientsOf(h, {}))
  {
  }

  lemma AllReleased(h: State, done: set<Where>, d: DaemonId)
    requires d in h.daemons && done <= AllOf(h, d)
    ensures d in Release(h, done).daemons && (Release(h, done).daemons[d].binds.Keys == {} <==> done == AllOf(h, d))
  {
    var left := Release(h, done).daemons[d].binds;
    if left.Keys == {} {
      forall w | w in AllOf(h, d) ensures w in done {
        assert w.1 !in left;
      }
    } else {
      var r :| r in left.Keys;
      assert (d, r) in AllOf(h, d) && (d, r) !in done;
    }
  }

  lemma CloseOne(h: State, done: set<Where>, d: DaemonId, r: Rid, pending: seq<Send>, more: seq<Send>)
    requires Inv(h) && BindAt(Release(h, done), d, r) && done <= AllOf(h, d)
    requires Tells(pending, ClientsOf(h, done)) && Tells(more, ClientsOf(Release(h, done), {(d, r)}))
    ensures done + {(d, r)} <= AllOf(h, d)
    ensures Tells(pending + more, ClientsOf(h, done + {(d, r)}))
    ensures Release(Release(h, done), {(d, r)}) == Release(h, done + {(d, r)})
    ensures var left := Release(h, done + {(d, r)}).daemons;
      && d in left && left[d].binds.Keys < Release(h, done).daemons[d].binds.Keys
      && (left[d].binds.Keys == {} <==> done + {(d, r)} == AllOf(h, d))
  {
    StillThere(h, done, d, r);
    ReleaseShrinks(h, Release(h, done), done + {(d, r)}, d, r);
    hide Inv, Tells, Release;
    NextClient(h, done, d, r);
    TellsMore(pending, more, ClientsOf(h, done), ClientsOf(Release(h, done), {(d, r)}));
    ReleaseTwice(h, done, {(d, r)});
    AllReleased(h, done + {(d, r)}, d);
  }

  lemma OneClient(h: State, d: DaemonId, r: Rid)
    requires BindAt(h, d, r)
    ensures ClientsOf(h, {(d, r)}) == {TheBind(h, d, r).client}
  {
  }

  lemma TellsOne(c: ClientWs, f: Frame, rest: seq<Send>)
    requires |rest| <= 1 && forall i :: 0 <= i < |rest| ==> rest[i].ToDaemon?
    ensures Tells([ToClient(c, f, true)] + rest, {c})
  {
    forall x: ClientWs ensures For([ToClient(c, f, true)] + rest, x) == if x == c then [ToClient(c, f, true)] else [] {
      ForConcat([ToClient(c, f, true)], rest, x);
      assert For([ToClient(c, f, true)], x) == For([], x) + if x == c then [ToClient(c, f, true)] else [];
    }
  }

  lemma ReleaseIdentity(h: State)
    ensures Release(h, {}) == h
  {
    forall d | d in h.daemons ensures Without(d, h.daemons[d], {}) == h.daemons[d] {
      assert Without(d, h.daemons[d], {}).binds == h.daemons[d].binds;
      assert Without(d, h.daemons[d], {}).slots == h.daemons[d].slots;
    }
    assert Release(h, {}).daemons == h.daemons && Release(h, {}).clients == h.clients;
  }

  lemma StillThere(h: State, done: set<Where>, d: DaemonId, r: Rid)
    requires BindAt(Release(h, done), d, r)
    ensures BindAt(h, d, r) && (d, r) !in done && TheBind(Release(h, done), d, r) == TheBind(h, d, r)
  {
  }

  // The next bind's client has not been told yet, and will be the only one added.
  lemma NextClient(h: State, done: set<Where>, d: DaemonId, r: Rid)
    requires Inv(h) && BindAt(Release(h, done), d, r)
    ensures ClientsOf(h, done) !! ClientsOf(Release(h, done), {(d, r)})
    ensures ClientsOf(h, done + {(d, r)}) == ClientsOf(h, done) + ClientsOf(Release(h, done), {(d, r)})
  {
    hide SlotsOk, Conns, Caps;
    StillThere(h, done, d, r);
    OneClient(Release(h, done), d, r);
    var c := TheBind(h, d, r).client;
    assert BoundTo(h, c, d, r);
    forall w | w in done && BindAt(h, w.0, w.1) ensures TheBind(h, w.0, w.1).client != c {
      assert BoundTo(h, TheBind(h, w.0, w.1).client, w.0, w.1);
    }
    forall x ensures x in ClientsOf(h, done + {(d, r)}) <==> x in ClientsOf(h, done) || x == c {
      assert BindAt(h, (d, r).0, (d, r).1) && TheBind(h, (d, r).0, (d, r).1).client == c;
    }
  }

  lemma ReleaseShrinks(h: State, k: State, done: set<Where>, d: DaemonId, r: Rid)
    requires BindAt(k, d, r) && d in h.daemons && (d, r) in done && k == Release(h, done - {(d, r)})
    ensures d in Release(h, done).daemons && Release(h, done).daemons[d].binds.Keys < k.daemons[d].binds.Keys
  {
  }

  lemma Untouched(e: DaemonId, m: Daemon, d: DaemonId, r: Rid)
    ensures e != d ==> Without(e, m, {(d, r)}) == m
  {
    if e != d {
      assert Without(e, m, {(d, r)}).binds == m.binds;
      assert Without(e, m, {(d, r)}).slots == m.slots;
    }
  }
}
