/**
  What the hub's handlers achieve when nothing stands in the way.
 */
module HubFlows {
  import opened Basics
  import opened Hub
  import opened HubSteps

  // A session attach to an online daemon binds the client to it under the new route, so that
  // frames go between the two, and costs at most the oldest hello exchange its bind.
  lemma SessionAttachBinds(h: State, c: ClientWs, d: DaemonId, now: int, r: Rid, lru: Rid)
    requires Inv(h) && Fair(h, EvSessionAttach(c, d, now, r, lru, true))
    requires MayAttach(Touched(h, c), c, now) && d in h.daemons && h.daemons[d].conn.Some?
    ensures var u, conn := SessionAttach(h, c, d, now, r, lru, true).next, h.daemons[d].conn.value;
      && BoundTo(u, c, d, r) && u.clients[c].mode == SessionMode
      && BindAt(u, d, r) && TheBind(u, d, r).kind == ResumeHello
      && ForwardUp(u, c) == Some((conn, r)) && ForwardDown(u, conn, r) == Some(c)
  {
    var u, conn := SessionAttach(h, c, d, now, r, lru, true).next, h.daemons[d].conn.value;
    SessionAttachKeeps(h, c, d, now, r, lru, true);
    assert BoundTo(u, c, d, r) && BindAt(u, d, r) && u.daemons[d].conn == Some(conn);
    hide Inv, SessionAttach, Fair;
    ForwardingIsExact(u, c, conn, r);
  }

  lemma SessionAttachSpares(h: State, c: ClientWs, d: DaemonId, now: int, r: Rid, lru: Rid, e: DaemonId, q: Rid)
    requires Inv(h) && Fair(h, EvSessionAttach(c, d, now, r, lru, true)) && BindAt(h, e, q)
    requires !(e == d && q == lru && |OfKind(h.daemons[d], ResumeHello)| >= MAX_RESUME)
    ensures BindAt(SessionAttach(h, c, d, now, r, lru, true).next, e, q)
    ensures TheBind(SessionAttach(h, c, d, now, r, lru, true).next, e, q) == TheBind(h, e, q)
  {
    hide Inv;
    assert BindAt(SessionAttach(h, c, d, now, r, lru, true).next, e, q);
    hide SessionAttach;
    SessionAttachGrows(h, c, d, now, r, lru, true, e, q);
  }

  // A pair attach to the open slot, in time and not taken, fills it with a pairing bind.
  lemma PairAttachFills(h: State, c: ClientWs, want: Option<Ref>, now: int, r: Rid, d: DaemonId, ref: Ref)
    requires Inv(h) && Fair(h, EvPairAttach(c, want, now, r, true)) && MayAttach(Touched(h, c), c, now)
    requires Matches(h, want, d, ref) && now <= h.daemons[d].slots[ref].deadline && h.daemons[d].slots[ref].bind == None
    ensures var u := PairAttach(h, c, want, now, r, true).next;
      && BoundTo(u, c, d, r) && u.clients[c].mode == PairingMode
      && BindAt(u, d, r) && TheBind(u, d, r) == Bind(c, Pairing, now, 0)
      && SlotAt(u, d, ref) && u.daemons[d].slots[ref] == h.daemons[d].slots[ref].(bind := Some(r))
  {
    hide Linked, Conns, Caps;
    var k := Touched(h, c);
    assert Matches(k, want, d, ref);
    var at := FindSlot(k, want).value;
    assert SlotAt(h, at.0, at.1) && SlotAt(h, d, ref);
    assert at == (d, ref);
  }

  // ---------------------------------------------------------------- the life of a bind

  // What a bind may become: its client and its age never change, frames are only counted up,
  // and a hello exchange may be promoted.
  ghost predicate Grows(b: Bind, b': Bind) {
    && b'.client == b.client && b'.created == b.created && b.pairFrames <= b'.pairFrames
    && (b'.kind == b.kind || (b.kind == ResumeHello && b'.kind == Established))
  }

  lemma PairOpenBind(h: State, conn: DaemonWs, id: DaemonId, ref: Ref, deadline: int, d: DaemonId, r: Rid)
    requires BindAt(PairOpen(h, conn, id, ref, deadline).next, d, r)
    ensures BindAt(h, d, r) && TheBind(PairOpen(h, conn, id, ref, deadline).next, d, r) == TheBind(h, d, r)
  {
    assert BindAt(PairOpen(h, conn, id, ref, deadline).next, d, r) ==> d in h.daemons && r in h.daemons[d].binds;
  }

  lemma SessionAttachGrows(h: State, c: ClientWs, id: DaemonId, now: int, q: Rid, lru: Rid, ok: bool, d: DaemonId,
                           r: Rid)
    requires BindAt(h, d, r) && !BindAt(h, d, q) && BindAt(SessionAttach(h, c, id, now, q, lru, ok).next, d, r)
    ensures TheBind(SessionAttach(h, c, id, now, q, lru, ok).next, d, r) == TheBind(h, d, r)
  {
  }

  lemma PairAttachGrows(h: State, c: ClientWs, want: Option<Ref>, now: int, q: Rid, ok: bool, d: DaemonId, r: Rid)
    requires BindAt(h, d, r) && !BindAt(h, d, q) && BindAt(PairAttach(h, c, want, now, q, ok).next, d, r)
    ensures TheBind(PairAttach(h, c, want, now, q, ok).next, d, r) == TheBind(h, d, r)
  {
    hide FindSlot;
  }

  lemma EstablishedGrows(h: State, conn: DaemonWs, q: Rid, d: DaemonId, r: Rid)
    requires BindAt(h, d, r) && BindAt(SessionEstablished(h, conn, q).next, d, r)
    ensures Grows(TheBind(h, d, r), TheBind(SessionEstablished(h, conn, q).next, d, r))
  {
    hide OwnerOf;
  }

  lemma ReleaseGrows(h: State, gone: set<Where>, d: DaemonId, r: Rid)
    ensures BindAt(Release(h, gone), d, r) ==> BindAt(h, d, r) && TheBind(Release(h, gone), d, r) == TheBind(h, d, r)
  {
  }

  lemma EmptiedGrows(h: State, id: DaemonId, conn: Option<DaemonWs>, d: DaemonId, r: Rid)
    requires BindAt(SetEmpty(Release(h, AllOf(h, id)), id, conn), d, r)
    ensures BindAt(h, d, r) && TheBind(SetEmpty(Release(h, AllOf(h, id)), id, conn), d, r) == TheBind(h, d, r)
  {
    hide Release, AllOf;
    ReleaseGrows(h, AllOf(h, id), d, r);
  }

  lemma SlotGoneGrows(h: State, id: DaemonId, ref: Ref, d: DaemonId, r: Rid)
    requires BindAt(h, d, r) && BindAt(SlotGone(h, id, ref).next, d, r)
    ensures TheBind(SlotGone(h, id, ref).next, d, r) == TheBind(h, d, r)
  {
  }

  lemma BindGoneGrows(h: State, id: DaemonId, q: Rid, d: DaemonId, r: Rid)
    requires BindAt(h, d, r) && BindAt(BindGone(h, id, q).next, d, r)
    ensures TheBind(BindGone(h, id, q).next, d, r) == TheBind(h, d, r)
  {
    hide Release;
    ReleaseGrows(h, {(id, q)}, d, r);
  }

  lemma DropClientGrows(h: State, c: ClientWs, d: DaemonId, r: Rid)
    requires BindAt(h, d, r) && BindAt(DropClient(h, c).next, d, r)
    ensures TheBind(DropClient(h, c).next, d, r) == TheBind(h, d, r)
  {
  }

  lemma FwdGrows(h: State, c: ClientWs, d: DaemonId, r: Rid)
    requires BindAt(h, d, r) && BindAt(FwdFromClient(h, c).next, d, r)
    ensures Grows(TheBind(h, d, r), TheBind(FwdFromClient(h, c).next, d, r))
  {
  }

  // The handlers of a daemon's websocket, and the timers.
  lemma DaemonGrows(h: State, e: Event, d: DaemonId, r: Rid)
    requires Fair(h, e) && BindAt(h, d, r) && BindAt(Step(h, e).next, d, r)
    requires !e.EvTouch? && !e.EvClientHello? && !e.EvHelloTimeout? && !e.EvFwdFromClient? && !e.EvDropClient?
    ensures Grows(TheBind(h, d, r), TheBind(Step(h, e).next, d, r))
  {
    hide OwnerOf, PairOpen, SessionAttach, PairAttach, SessionEstablished, Release, AllOf, SlotGone, BindGone,
      Touched, ClientHello, HelloTimeout, FwdFromClient, DropClient;
    match e
    case EvPairOpen(conn, id, ref, deadline) => PairOpenBind(h, conn, id, ref, deadline, d, r);
    case EvSessionAttach(c, id, now, q, lru, ok) => SessionAttachGrows(h, c, id, now, q, lru, ok, d, r);
    case EvPairAttach(c, want, now, q, ok) => PairAttachGrows(h, c, want, now, q, ok, d, r);
    case EvSessionEstablished(conn, q) => EstablishedGrows(h, conn, q, d, r);
    case EvReconnect(conn, id, _) => if Step(h, e).next != h { EmptiedGrows(h, id, Some(conn), d, r); }
    case EvDaemonSendFailed(id, conn) => if IsOwner(h, id, conn) { EmptiedGrows(h, id, None, d, r); }
    case EvDropDaemonWs(conn) => if OwnerOf(h, conn).Some? { EmptiedGrows(h, OwnerOf(h, conn).value, None, d, r); }
    case EvPairClose(conn, ref) => if OwnerOf(h, conn).Some? { SlotGoneGrows(h, OwnerOf(h, conn).value, ref, d, r); }
    case EvSlotExpired(id, ref) => SlotGoneGrows(h, id, ref, d, r);
    case EvDaemonError(conn, q) => if OwnerOf(h, conn).Some? { BindGoneGrows(h, OwnerOf(h, conn).value, q, d, r); }
    case EvResumeTimeout(id, q) => if Step(h, e).next != h { BindGoneGrows(h, id, q, d, r); }
    case EvPairTimeout(id, q) => if Step(h, e).next != h { BindGoneGrows(h, id, q, d, r); }
    case EvClientSendFailed(id, q) => BindGoneGrows(h, id, q, d, r);
    case _ =>
  }

  lemma StepGrows(h: State, e: Event, d: DaemonId, r: Rid)
    requires Fair(h, e) && BindAt(h, d, r) && BindAt(Step(h, e).next, d, r)
    ensures Grows(TheBind(h, d, r), TheBind(Step(h, e).next, d, r))
  {
    if e.EvFwdFromClient? {
      FwdGrows(h, e.c, d, r);
    } else if e.EvDropClient? {
      DropClientGrows(h, e.c, d, r);
    } else if e.EvTouch? || e.EvClientHello? || e.EvHelloTimeout? {
      assert Step(h, e).next.daemons == h.daemons;
    } else {
      hide Step, Fair;
      DaemonGrows(h, e, d, r);
    }
  }

  ghost predicate Stays(h: State, events: seq<Event>, d: DaemonId, r: Rid)
    decreases |events|
  {
    BindAt(h, d, r) && (events != [] ==> Stays(Step(h, events[0]).next, events[1..], d, r))
  }

  lemma {:induction false} RunGrows(h: State, events: seq<Event>, d: DaemonId, r: Rid)
    requires FairRun(h, events) && Stays(h, events, d, r)
    ensures BindAt(Run(h, events), d, r) && Grows(TheBind(h, d, r), TheBind(Run(h, events), d, r))
    decreases |events|
  {
    hide Step, Fair;
    if events != [] {
      RunGrows(Step(h, events[0]).next, events[1..], d, r);
      StepGrows(h, events[0], d, r);
    }
  }

  // Once promoted, a bind is past its hello timer: whenever that timer runs, the session is
  // still up, between the same client and the same daemon, and stays so.
  lemma PromotionOutlivesTimer(h: State, conn: DaemonWs, r: Rid, d: DaemonId, events: seq<Event>)
    requires Inv(h) && OwnerOf(h, conn) == Some(d) && BindAt(h, d, r) && TheBind(h, d, r).kind == ResumeHello
    requires |OfKind(h.daemons[d], Established)| < MAX_ESTABLISHED
    requires var k := SessionEstablished(h, conn, r).next; FairRun(k, events) && Stays(k, events, d, r)
    ensures var u := Run(SessionEstablished(h, conn, r).next, events);
      && BindAt(u, d, r) && TheBind(u, d, r).kind == Established && BoundTo(u, TheBind(h, d, r).client, d, r)
      && Step(u, EvResumeTimeout(d, r)) == Outcome(u, {})
  {
    var k := SessionEstablished(h, conn, r).next;
    assert TheBind(k, d, r) == TheBind(h, d, r).(kind := Established);
    SessionEstablishedKeeps(h, conn, r);
    RunKeeps(k, events);
    RunGrows(k, events, d, r);
  }

  // After a slot was opened it is the only one anywhere.
  lemma PairOpenLeavesOne(h: State, conn: DaemonWs, id: DaemonId, ref: Ref, deadline: int, x: DaemonId, y: Ref)
    requires Inv(h) && OwnerOf(h, conn) == Some(id) && id in h.daemons
    ensures var u := PairOpen(h, conn, id, ref, deadline).next;
      && (SlotAt(u, x, y) <==> x == id && y == ref)
      && u.daemons[id].slots[ref].deadline == deadline
  {
    hide Linked, Conns, Caps;
    if ref in h.daemons[id].slots {
      assert SlotAt(h, id, ref);
      assert SlotAt(PairOpen(h, conn, id, ref, deadline).next, x, y) ==> SlotAt(h, x, y);
    } else {
      UnslottedKeeps(h);
    }
  }

  // A reconnect makes the new websocket the daemon's only owner, with nothing of the old.
  lemma ReconnectTakesOver(h: State, conn: DaemonWs, id: DaemonId, token: Token)
    requires Inv(h) && OwnerOf(h, conn) == None && token in h.reconnect && h.reconnect[token] == id
    ensures var u := Reconnect(h, conn, id, token).next;
      && OwnerOf(u, conn) == Some(id) && u.daemons[id] == Daemon(Some(conn), map[], map[])
      && forall e :: e in h.daemons && e != id ==> e in u.daemons && u.daemons[e] == h.daemons[e]
  {
    hide Linked, SlotsOk, Caps;
    var u := Reconnect(h, conn, id, token).next;
    OwnerIs(h, conn);
    OwnerIs(u, conn);
    assert IsOwner(u, id, conn);
    forall e | e in h.daemons && e != id ensures e in u.daemons && u.daemons[e] == h.daemons[e] {
      OthersStay(h, id, e);
    }
  }

  lemma OthersStay(h: State, id: DaemonId, e: DaemonId)
    requires e in h.daemons && e != id
    ensures Release(h, AllOf(h, id)).daemons[e] == h.daemons[e]
  {
    var w := Release(h, AllOf(h, id)).daemons[e];
    assert w.binds == h.daemons[e].binds && w.slots == h.daemons[e].slots;
  }

  // A daemon that drops has nothing left, and its clients are free.
  lemma DropDaemonClears(h: State, d: DaemonId, c: ClientWs)
    requires Inv(h) && d in h.daemons
    ensures var o := DropDaemon(h, d);
      && o.next.daemons[d] == Daemon(None, map[], map[])
      && (c in h.clients && h.clients[c].daemon == Some(d) ==>
            c in o.informed && c in o.next.clients && o.next.clients[c] == h.clients[c].(daemon := None, bind := None))
      && (c in h.clients && h.clients[c].daemon != Some(d) ==> c in o.next.clients && o.next.clients[c] == h.clients[c])
  {
    hide SlotsOk, Conns, Caps;
    if c in h.clients && h.clients[c].daemon == Some(d) {
      var r := h.clients[c].bind.value;
      assert BoundTo(h, c, d, r) && BindAt(h, d, r);
      assert (d, r) in AllOf(h, d) && BindAt(h, (d, r).0, (d, r).1) && TheBind(h, (d, r).0, (d, r).1).client == c;
    }
  }
}
