/**
  Pairing slots: one-use codes and the passphrase gate. A slot goes from attach through the
  proof, the operator's word and the encrypted confirmation to at most one device row.

  Whether a proof or a sealed message is right is a parameter of the step; so are random ids.
 */
module Pairing {
  import opened Basics

  type SlotId = nat
  type Route = nat
  type DeviceId = string

  // issuing: confirmations waiting for a decision; accepted: decided and about to be sent.
  datatype Slot = Slot(
    persistent: bool, route: Route, failures: nat, verifier: bool, keys: bool,
    confirmVerified: bool, confirmStarted: bool, pairedAEAD: bool,
    deviceId: DeviceId, admitted: bool, closed: bool, issuing: nat, accepted: nat)

  // rows: the device rows saved so far, with the slot each came from.
  datatype State = State(
    slots: map<SlotId, Slot>, psks: map<SlotId, Bytes>, current: Option<SlotId>,
    devices: map<DeviceId, Bytes>, auto: bool, rows: seq<(SlotId, DeviceId)>)

  const MAX_FAILURES := 3

  // ---------------------------------------------------------------- steps

  function NewSlot(persistent: bool): Slot {
    Slot(persistent, 0, 0, false, false, false, false, false, "", false, false, 0, 0)
  }

  function Reset(p: Slot): Slot {
    p.(verifier := true, keys := false, confirmVerified := false, confirmStarted := false, pairedAEAD := false)
  }

  ghost predicate Open(s: State, id: SlotId) { id in s.slots && id in s.psks && !s.slots[id].closed }

  ghost function With(s: State, id: SlotId, p: Slot): State { s.(slots := s.slots[id := p]) }

  function Burnt(p: Slot): Slot { p.(closed := true, admitted := false, keys := false, verifier := false) }

  ghost function Burn(s: State, id: SlotId): State {
    if !Open(s, id) then s
    else s.(slots := s.slots[id := Burnt(s.slots[id])],
            psks := s.psks[id := Zeros(s.psks[id])],
            current := if s.current == Some(id) then None else s.current)
  }

  ghost function OpenSlot(s: State, id: SlotId, persistent: bool): State {
    var t := if s.current.Some? then Burn(s, s.current.value) else s;
    t.(slots := t.slots[id := NewSlot(persistent)], psks := t.psks[id := []], current := Some(id))
  }

  // The slot a handler may still act on.
  ghost predicate Live(s: State, id: SlotId) { Open(s, id) && s.current == Some(id) }

  ghost function Attached(s: State, id: SlotId, route: Route): State {
    if !Live(s, id) || s.slots[id].confirmVerified || s.slots[id].pairedAEAD then s
    else With(s, id, Reset(s.slots[id].(route := route)))
  }

  // pairFailureLocked: a failure burns a one-use code the third time, and a gate never.
  ghost function Reject(s: State, id: SlotId): State {
    if !Live(s, id) then s
    else
      var p := s.slots[id].(failures := s.slots[id].failures + 1);
      if !p.persistent && p.failures >= MAX_FAILURES then With(Burn(s, id), id, Burnt(p))
      else With(s, id, Reset(p))
  }

  datatype Message =
    | Garbage
    | Share(wellFormed: bool, throttled: bool)
    | Confirm(matches: bool)
    | Ack(valid: bool, saved: bool)

  // The acknowledgement that makes the device. The slot is burned either way.
  ghost function Acknowledge(s: State, id: SlotId, saved: bool): State
    requires Open(s, id)
  {
    var dev, t := s.slots[id].deviceId, Burn(s, id);
    if saved then t.(devices := s.devices[dev := s.psks[id]], rows := s.rows + [(id, dev)])
    else t.(devices := s.devices - {dev})
  }

  ghost function Handle(s: State, id: SlotId, route: Route, m: Message): State {
    if !Live(s, id) || route != s.slots[id].route then s
    else
      var p := s.slots[id];
      if p.pairedAEAD then (if m.Ack? && m.valid then Acknowledge(s, id, m.saved) else Burn(s, id))
      else
        match m
        case Garbage => Reject(s, id)
        case Ack(_, _) => Reject(s, id)
        case Share(wellFormed, throttled) =>
          if p.persistent && throttled then s
          else if !p.verifier || p.confirmVerified || !wellFormed then Reject(s, id)
          else With(s, id, p.(keys := true))
        case Confirm(matches) =>
          if !p.keys || p.confirmVerified || !matches then Reject(s, id)
          else With(s, id, p.(confirmVerified := true, confirmStarted := true,
                              issuing := if p.confirmStarted then p.issuing else p.issuing + 1))
  }

  ghost function Admit(s: State, id: SlotId): State {
    if Live(s, id) then With(s, id, s.slots[id].(admitted := true)) else s
  }

  ghost predicate Accepts(s: State, id: SlotId)
    requires id in s.slots
  {
    || s.auto
    || (s.slots[id].persistent && s.slots[id].confirmVerified && Live(s, id))
    || (s.slots[id].admitted && Live(s, id))
  }

  // issueConfirmPairing up to the verdict; timedOut ends the wait for the operator.
  ghost function Decide(s: State, id: SlotId): State {
    if id !in s.slots || s.slots[id].issuing == 0 then s
    else
      var p := s.slots[id].(issuing := s.slots[id].issuing - 1);
      if Accepts(s, id) then With(s, id, p.(accepted := p.accepted + 1))
      else Burn(With(s, id, p), id)
  }

  // And after it: fresh credentials, the encrypted phase, and the message to the phone.
  ghost function Issue(s: State, id: SlotId, dev: DeviceId, psk: Bytes, sent: bool): State {
    if id !in s.slots || s.slots[id].accepted == 0 then s
    else
      var t := With(s, id, s.slots[id].(accepted := s.slots[id].accepted - 1));
      if !Live(t, id) || !t.slots[id].confirmVerified then t
      else
        var u := With(t, id, t.slots[id].(deviceId := dev, pairedAEAD := true)).(psks := t.psks[id := psk]);
        if sent then u else Burn(u, id)
  }

  datatype Event =
    | EvOpen(id: SlotId, persistent: bool)
    | EvAttached(id: SlotId, route: Route)
    | EvMessage(id: SlotId, route: Route, m: Message)
    | EvAdmit(id: SlotId)
    | EvBurn(id: SlotId) // denied, expired, no entropy, relay refused the slot
    | EvDecide(id: SlotId)
    | EvIssue(id: SlotId, dev: DeviceId, psk: Bytes, sent: bool)

  ghost function Step(s: State, e: Event): State {
    match e
    case EvOpen(id, persistent) => OpenSlot(s, id, persistent)
    case EvAttached(id, route) => Attached(s, id, route)
    case EvMessage(id, route, m) => Handle(s, id, route, m)
    case EvAdmit(id) => Admit(s, id)
    case EvBurn(id) => Burn(s, id)
    case EvDecide(id) => Decide(s, id)
    case EvIssue(id, dev, psk, sent) => Issue(s, id, dev, psk, sent)
  }

  // Each slot is a new object.
  ghost predicate Fair(s: State, e: Event) { e.EvOpen? ==> e.id !in s.slots && e.id !in s.psks }

  ghost function Run(s: State, events: seq<Event>): State
    decreases |events|
  {
    if events == [] then s else Run(Step(s, events[0]), events[1..])
  }

  ghost predicate FairRun(s: State, events: seq<Event>)
    decreases |events|
  {
    events == [] || (Fair(s, events[0]) && FairRun(Step(s, events[0]), events[1..]))
  }

  // ---------------------------------------------------------------- the invariant

  ghost predicate Authorized(p: Slot, auto: bool) { auto || p.persistent || p.admitted }

  ghost predicate SlotOk(p: Slot, auto: bool) {
    !p.closed ==>
      && (p.pairedAEAD ==> p.confirmVerified && Authorized(p, auto))
      && (p.accepted > 0 ==> Authorized(p, auto))
      && (!p.persistent ==> p.failures < MAX_FAILURES)
  }

  ghost predicate Wiped(psk: Bytes) { forall i :: 0 <= i < |psk| ==> psk[i] == 0 }

  ghost predicate SlotsOk(s: State) {
    && s.slots.Keys == s.psks.Keys
    && (forall id :: id in s.slots ==> SlotOk(s.slots[id], s.auto))
    && (forall id :: id in s.slots && !s.slots[id].closed ==> s.current == Some(id))
    && (forall id :: id in s.slots && s.slots[id].closed ==> Wiped(s.psks[id]))
    && (s.current.Some? ==> Open(s, s.current.value))
  }

  ghost predicate RowsOk(s: State) {
    && (forall i :: 0 <= i < |s.rows| ==> s.rows[i].0 in s.slots && s.slots[s.rows[i].0].closed)
    && (forall i, j :: 0 <= i < j < |s.rows| ==> s.rows[i].0 != s.rows[j].0)
  }

  ghost predicate Inv(s: State) { SlotsOk(s) && RowsOk(s) }

  lemma WithKeeps(s: State, id: SlotId, p: Slot)
    requires Inv(s) && id in s.slots && SlotOk(p, s.auto) && p.closed == s.slots[id].closed
    ensures Inv(With(s, id, p))
  {
  }

  lemma BurnKeeps(s: State, id: SlotId)
    requires Inv(s)
    ensures Inv(Burn(s, id))
  {
  }

  lemma BurnIs(s: State, id: SlotId)
    ensures Burn(s, id).rows == s.rows && Burn(s, id).devices == s.devices && Burn(s, id).auto == s.auto
    ensures Open(s, id) ==> id in Burn(s, id).slots && Burn(s, id).slots[id] == Burnt(s.slots[id])
    ensures Burn(s, id).slots.Keys == s.slots.Keys && Burn(s, id).psks.Keys == s.psks.Keys
    ensures forall x :: x in s.slots && s.slots[x].closed ==> x in Burn(s, id).slots && Burn(s, id).slots[x].closed
    ensures Open(s, id) && s.current == Some(id) ==> Burn(s, id).current == None
  {
  }

  lemma AddKeeps(t: State, id: SlotId, persistent: bool)
    requires Inv(t) && t.current == None && id !in t.slots && id !in t.psks
    ensures Inv(t.(slots := t.slots[id := NewSlot(persistent)], psks := t.psks[id := []], current := Some(id)))
  {
  }

  lemma CurrentIsOpen(s: State)
    requires Inv(s) && s.current.Some?
    ensures Open(s, s.current.value)
  {
  }

  lemma OpenKeeps(s: State, id: SlotId, persistent: bool)
    requires Inv(s) && id !in s.slots && id !in s.psks
    ensures Inv(OpenSlot(s, id, persistent))
  {
    hide Inv, Burn, Open;
    if s.current.Some? {
      CurrentIsOpen(s);
      BurnKeeps(s, s.current.value);
      BurnIs(s, s.current.value);
    }
    AddKeeps(if s.current.Some? then Burn(s, s.current.value) else s, id, persistent);
  }

  lemma ResetIsOk(p: Slot, auto: bool)
    requires SlotOk(p, auto)
    ensures SlotOk(Reset(p), auto)
    ensures p.persistent || p.failures + 1 < MAX_FAILURES ==> SlotOk(Reset(p.(failures := p.failures + 1)), auto)
  {
  }

  lemma RejectKeeps(s: State, id: SlotId)
    requires Inv(s)
    ensures Inv(Reject(s, id)) && Reject(s, id).rows == s.rows && Reject(s, id).devices == s.devices
  {
    hide Inv, Burn, SlotOk;
    if Live(s, id) {
      SlotIsOk(s, id);
      ResetIsOk(s.slots[id], s.auto);
      var p := s.slots[id].(failures := s.slots[id].failures + 1);
      if !p.persistent && p.failures >= MAX_FAILURES {
        BurnKeeps(s, id);
        BurnIs(s, id);
        ClosedIsOk(Burnt(p), s.auto);
        WithKeeps(Burn(s, id), id, Burnt(p));
      } else {
        WithKeeps(s, id, Reset(p));
      }
    }
  }

  lemma ClosedIsOk(p: Slot, auto: bool)
    requires p.closed
    ensures SlotOk(p, auto)
  {
  }

  lemma AcknowledgeKeeps(s: State, id: SlotId, saved: bool)
    requires Inv(s) && Live(s, id)
    ensures Inv(Acknowledge(s, id, saved))
  {
    var dev, t := s.slots[id].deviceId, Burn(s, id);
    NoRowYet(s, id);
    BurnKeeps(s, id);
    BurnIs(s, id);
    hide Burn, Open, SlotsOk, RowsOk;
    RowAdded(t, id, dev);
    var u := Acknowledge(s, id, saved);
    SameSlots(t, u);
    if !saved { SameRows(t, u); } else { SameRows(t.(rows := t.rows + [(id, dev)]), u); }
  }

  lemma SameSlots(t: State, u: State)
    requires SlotsOk(t) && u.slots == t.slots && u.psks == t.psks && u.current == t.current && u.auto == t.auto
    ensures SlotsOk(u)
  {
  }

  lemma SameRows(t: State, u: State)
    requires RowsOk(t) && u.slots == t.slots && u.rows == t.rows
    ensures RowsOk(u)
  {
  }

  lemma RowAdded(t: State, id: SlotId, dev: DeviceId)
    requires RowsOk(t) && id in t.slots && t.slots[id].closed
    requires forall i :: 0 <= i < |t.rows| ==> t.rows[i].0 != id
    ensures RowsOk(t.(rows := t.rows + [(id, dev)]))
  {
  }

  // An open slot has no row.
  lemma NoRowYet(s: State, id: SlotId)
    requires RowsOk(s) && Open(s, id)
    ensures forall i :: 0 <= i < |s.rows| ==> s.rows[i].0 != id
  {
  }

  lemma HandleKeeps(s: State, id: SlotId, route: Route, m: Message)
    requires Inv(s)
    ensures Inv(Handle(s, id, route, m))
  {
    hide Inv, Burn, Reject, Acknowledge, SlotOk;
    BurnKeeps(s, id);
    RejectKeeps(s, id);
    if Live(s, id) && route == s.slots[id].route {
      var p := s.slots[id];
      assert SlotOk(p, s.auto) by { SlotIsOk(s, id); }
      if p.pairedAEAD {
        if m.Ack? && m.valid { AcknowledgeKeeps(s, id, m.saved); }
      } else {
        match m
        case Garbage =>
        case Ack(_, _) =>
        case Share(wellFormed, throttled) =>
          TouchIsOk(p, s.auto, p.(keys := true));
          WithKeeps(s, id, p.(keys := true));
        case Confirm(matches) =>
          var q := p.(confirmVerified := true, confirmStarted := true,
                      issuing := if p.confirmStarted then p.issuing else p.issuing + 1);
          TouchIsOk(p, s.auto, q);
          WithKeeps(s, id, q);
      }
    }
  }

  lemma SlotIsOk(s: State, id: SlotId)
    requires Inv(s) && id in s.slots
    ensures SlotOk(s.slots[id], s.auto)
  {
  }

  lemma TouchIsOk(p: Slot, auto: bool, q: Slot)
    requires SlotOk(p, auto) && q.closed == p.closed && q.pairedAEAD == p.pairedAEAD && q.failures == p.failures
    requires q.accepted <= p.accepted && q.admitted == p.admitted && q.persistent == p.persistent
    requires p.confirmVerified ==> q.confirmVerified
    ensures SlotOk(q, auto)
  {
  }

  lemma AcceptIsOk(s: State, id: SlotId)
    requires id in s.slots && SlotOk(s.slots[id], s.auto) && Accepts(s, id) && s.slots[id].issuing > 0
    ensures SlotOk(s.slots[id].(issuing := s.slots[id].issuing - 1, accepted := s.slots[id].accepted + 1), s.auto)
  {
  }

  lemma IssuingIsOk(p: Slot, auto: bool, n: nat)
    requires SlotOk(p, auto)
    ensures SlotOk(p.(issuing := n), auto)
  {
  }

  lemma DecideKeeps(s: State, id: SlotId)
    requires Inv(s)
    ensures Inv(Decide(s, id))
  {
    hide Inv, Burn, SlotOk, Accepts, With;
    if id in s.slots && s.slots[id].issuing > 0 {
      var p := s.slots[id].(issuing := s.slots[id].issuing - 1);
      SlotIsOk(s, id);
      if Accepts(s, id) {
        AcceptIsOk(s, id);
        WithKeeps(s, id, p.(accepted := p.accepted + 1));
      } else {
        IssuingIsOk(s.slots[id], s.auto, s.slots[id].issuing - 1);
        WithKeeps(s, id, p);
        BurnKeeps(With(s, id, p), id);
      }
    }
  }

  lemma DecideFrame(s: State, id: SlotId)
    ensures Decide(s, id).rows == s.rows && Decide(s, id).devices == s.devices
  {
    hide Burn, Accepts;
    if id in s.slots && s.slots[id].issuing > 0 {
      BurnIs(With(s, id, s.slots[id].(issuing := s.slots[id].issuing - 1)), id);
    }
  }

  lemma SetPskKeeps(s: State, id: SlotId, psk: Bytes)
    requires Inv(s) && Open(s, id)
    ensures Inv(s.(psks := s.psks[id := psk]))
  {
  }

  lemma IssueIsOk(p: Slot, auto: bool, dev: DeviceId)
    requires SlotOk(p, auto) && p.accepted > 0
    ensures SlotOk(p.(accepted := p.accepted - 1), auto)
    ensures p.confirmVerified ==> SlotOk(p.(accepted := p.accepted - 1, deviceId := dev, pairedAEAD := true), auto)
  {
  }

  lemma IssueKeeps(s: State, id: SlotId, dev: DeviceId, psk: Bytes, sent: bool)
    requires Inv(s)
    ensures Inv(Issue(s, id, dev, psk, sent)) && Issue(s, id, dev, psk, sent).rows == s.rows
    ensures Issue(s, id, dev, psk, sent).devices == s.devices
  {
    hide Inv, Burn, SlotOk;
    if id in s.slots && s.slots[id].accepted > 0 {
      SlotIsOk(s, id);
      IssueIsOk(s.slots[id], s.auto, dev);
      var p := s.slots[id].(accepted := s.slots[id].accepted - 1);
      WithKeeps(s, id, p);
      var t := With(s, id, p);
      if Live(t, id) && p.confirmVerified {
        var q := p.(deviceId := dev, pairedAEAD := true);
        WithKeeps(t, id, q);
        SetPskKeeps(With(t, id, q), id, psk);
        var u := With(t, id, q).(psks := t.psks[id := psk]);
        BurnKeeps(u, id);
        BurnIs(u, id);
      }
    }
  }

  lemma StepKeeps(s: State, e: Event)
    requires Inv(s) && Fair(s, e)
    ensures Inv(Step(s, e))
  {
    hide Burn, OpenSlot, Handle, Decide, Issue, SlotOk, Wiped;
    match e
    case EvOpen(id, persistent) => OpenKeeps(s, id, persistent);
    case EvAttached(id, route) => AttachedKeeps(s, id, route);
    case EvMessage(id, route, m) => HandleKeeps(s, id, route, m);
    case EvAdmit(id) => AdmitKeeps(s, id);
    case EvBurn(id) => BurnKeeps(s, id);
    case EvDecide(id) => DecideKeeps(s, id);
    case EvIssue(id, dev, psk, sent) => IssueKeeps(s, id, dev, psk, sent);
  }

  lemma AttachedKeeps(s: State, id: SlotId, route: Route)
    requires Inv(s)
    ensures Inv(Attached(s, id, route))
  {
    if Live(s, id) { WithKeeps(s, id, Reset(s.slots[id].(route := route))); }
  }

  lemma AdmitKeeps(s: State, id: SlotId)
    requires Inv(s)
    ensures Inv(Admit(s, id))
  {
    if Live(s, id) { WithKeeps(s, id, s.slots[id].(admitted := true)); }
  }

  lemma {:induction false} RunKeeps(s: State, events: seq<Event>)
    requires Inv(s) && FairRun(s, events)
    ensures Inv(Run(s, events))
    decreases |events|
  {
    hide Inv, Step, Fair;
    if events != [] {
      StepKeeps(s, events[0]);
      RunKeeps(Step(s, events[0]), events[1..]);
    }
  }

  // ---------------------------------------------------------------- what the slots promise

  // A device row comes only from a slot whose proof was verified, that is in its encrypted
  // phase and that the operator, the gate or the development switch let in; and the slot is
  // closed from then on.
  lemma RowsComeFromReadySlots(s: State, e: Event)
    requires Inv(s) && Fair(s, e) && Step(s, e).rows != s.rows
    ensures e.EvMessage? && e.m.Ack? && e.m.valid && Live(s, e.id)
    ensures var p := s.slots[e.id];
      && p.confirmVerified && p.pairedAEAD && Authorized(p, s.auto) && e.route == p.route
      && Step(s, e).rows == s.rows + [(e.id, p.deviceId)] && Step(s, e).slots[e.id].closed
      && p.deviceId in Step(s, e).devices && Step(s, e).devices[p.deviceId] == s.psks[e.id]
  {
    hide Burn, Decide, Issue, SlotsOk, RowsOk;
    match e
    case EvOpen(id, persistent) => BurnIs(s, if s.current.Some? then s.current.value else 0);
    case EvAttached(id, route) =>
    case EvMessage(id, route, m) =>
      BurnIs(s, id);
      RejectKeeps(s, id);
      if Live(s, id) { SlotIsOk(s, id); }
    case EvAdmit(id) =>
    case EvBurn(id) => BurnIs(s, id);
    case EvDecide(id) => DecideFrame(s, id);
    case EvIssue(id, dev, psk, sent) => IssueKeeps(s, id, dev, psk, sent);
  }

  // No slot makes two.
  lemma OneRowPerSlot(s: State, events: seq<Event>, i: nat, j: nat)
    requires Inv(s) && FairRun(s, events) && i < j < |Run(s, events).rows|
    ensures Run(s, events).rows[i].0 != Run(s, events).rows[j].0
  {
    RunKeeps(s, events);
  }

  // The third failure closes a one-use slot and wipes its key; a gate stays open and current
  // through any failure.
  lemma FailuresBurnExactly(s: State, id: SlotId)
    requires Inv(s) && Live(s, id)
    ensures Reject(s, id).slots[id].closed <==> !s.slots[id].persistent && s.slots[id].failures == MAX_FAILURES - 1
    ensures Reject(s, id).slots[id].closed ==> Reject(s, id).current == None && Wiped(Reject(s, id).psks[id])
    ensures !Reject(s, id).slots[id].closed ==> Live(Reject(s, id), id) && !Reject(s, id).slots[id].confirmVerified
    ensures Reject(s, id).slots[id].failures == s.slots[id].failures + 1
  {
    SlotIsOk(s, id);
  }

  // A closed slot never opens again, over any run.
  lemma {:induction false} ClosedIsForever(s: State, events: seq<Event>, id: SlotId)
    requires Inv(s) && FairRun(s, events) && id in s.slots && s.slots[id].closed
    ensures id in Run(s, events).slots && Run(s, events).slots[id].closed
    decreases |events|
  {
    hide Inv, Step, Fair;
    if events != [] {
      StepKeeps(s, events[0]);
      StaysClosed(s, events[0], id);
      ClosedIsForever(Step(s, events[0]), events[1..], id);
    }
  }

  lemma HandleStaysClosed(s: State, x: SlotId, route: Route, m: Message, id: SlotId)
    requires id in s.slots && s.slots[id].closed
    ensures id in Handle(s, x, route, m).slots && Handle(s, x, route, m).slots[id].closed
  {
    hide Burn, Reject;
    BurnIs(s, x);
    RejectStaysClosed(s, x, id);
  }

  lemma StaysClosed(s: State, e: Event, id: SlotId)
    requires Fair(s, e) && id in s.slots && s.slots[id].closed
    ensures id in Step(s, e).slots && Step(s, e).slots[id].closed
  {
    hide Burn, Decide, Issue, Handle;
    match e
    case EvOpen(x, persistent) => BurnIs(s, if s.current.Some? then s.current.value else 0);
    case EvAttached(x, route) =>
    case EvMessage(x, route, m) => HandleStaysClosed(s, x, route, m, id);
    case EvAdmit(x) =>
    case EvBurn(x) => BurnIs(s, x);
    case EvDecide(x) => DecideStaysClosed(s, x, id);
    case EvIssue(x, dev, psk, sent) => IssueStaysClosed(s, x, dev, psk, sent, id);
  }

  lemma RejectStaysClosed(s: State, x: SlotId, id: SlotId)
    requires id in s.slots && s.slots[id].closed
    ensures id in Reject(s, x).slots && Reject(s, x).slots[id].closed
  {
    hide Burn;
    BurnIs(s, x);
  }

  lemma DecideStaysClosed(s: State, x: SlotId, id: SlotId)
    requires id in s.slots && s.slots[id].closed
    ensures id in Decide(s, x).slots && Decide(s, x).slots[id].closed
  {
    hide Burn, Accepts;
    if x in s.slots && s.slots[x].issuing > 0 {
      BurnIs(With(s, x, s.slots[x].(issuing := s.slots[x].issuing - 1)), x);
    }
  }

  lemma IssueStaysClosed(s: State, x: SlotId, dev: DeviceId, psk: Bytes, sent: bool, id: SlotId)
    requires id in s.slots && s.slots[id].closed
    ensures id in Issue(s, x, dev, psk, sent).slots && Issue(s, x, dev, psk, sent).slots[id].closed
  {
    hide Burn;
    if x in s.slots && s.slots[x].accepted > 0 {
      var t := With(s, x, s.slots[x].(accepted := s.slots[x].accepted - 1));
      BurnIs(With(t, x, t.slots[x].(deviceId := dev, pairedAEAD := true)).(psks := t.psks[x := psk]), x);
    }
  }

  // From an open slot to a device: attach, share, proof, the operator's word, confirmation
  // and acknowledgement make one row with the key that was issued, and close the slot.
  lemma PairingCompletes(s: State, id: SlotId, route: Route, dev: DeviceId, psk: Bytes)
    requires Live(s, id) && s.slots[id] == NewSlot(false)
    ensures var u := Attached(s, id, route);
      var v := Handle(Handle(u, id, route, Share(true, false)), id, route, Confirm(true));
      var w := Issue(Decide(Admit(v, id), id), id, dev, psk, true);
      var z := Handle(w, id, route, Ack(true, true));
      && z.rows == s.rows + [(id, dev)] && dev in z.devices && z.devices[dev] == psk
      && id in z.slots && z.slots[id].closed && id in z.psks && z.psks[id] == Zeros(psk) && z.current == None
  {
    hide Handle, Issue, Decide, Admit, Attached;
    ProofGoesThrough(s, id, route);
    ConfirmationGoesOut(Handle(Handle(Attached(s, id, route), id, route, Share(true, false)), id, route,
      Confirm(true)), id, dev, psk);
    var v := Handle(Handle(Attached(s, id, route), id, route, Share(true, false)), id, route, Confirm(true));
    AckMakesDevice(Issue(Decide(Admit(v, id), id), id, dev, psk, true), id, route);
  }

  // The slot after the proof, told by what changed.
  ghost function Proven(p: Slot, route: Route): Slot {
    p.(route := route, verifier := true, keys := true, confirmVerified := true, confirmStarted := true, issuing := 1)
  }

  lemma ProofGoesThrough(s: State, id: SlotId, route: Route)
    requires Live(s, id) && s.slots[id] == NewSlot(false)
    ensures var v := Handle(Handle(Attached(s, id, route), id, route, Share(true, false)), id, route, Confirm(true));
      Live(v, id) && v.slots[id] == Proven(NewSlot(false), route)
      && v.rows == s.rows && v.devices == s.devices && v.auto == s.auto
  {
    var u := Attached(s, id, route);
    assert u == With(s, id, Reset(s.slots[id].(route := route)));
    var a := Handle(u, id, route, Share(true, false));
    assert a == With(u, id, u.slots[id].(keys := true));
  }

  lemma ConfirmationGoesOut(v: State, id: SlotId, dev: DeviceId, psk: Bytes)
    requires Live(v, id) && v.slots[id].confirmVerified && v.slots[id].issuing == 1 && v.slots[id].accepted == 0
    ensures var w := Issue(Decide(Admit(v, id), id), id, dev, psk, true);
      Live(w, id) && w.slots[id].pairedAEAD && w.slots[id].deviceId == dev && w.psks[id] == psk
      && w.slots[id].route == v.slots[id].route && w.rows == v.rows && w.devices == v.devices
  {
    var b := Admit(v, id);
    assert b == With(v, id, v.slots[id].(admitted := true));
    var c := Decide(b, id);
    assert c == With(b, id, b.slots[id].(issuing := 0, accepted := 1));
  }

  lemma AckMakesDevice(w: State, id: SlotId, route: Route)
    requires Live(w, id) && w.slots[id].pairedAEAD && w.slots[id].route == route
    ensures var z, dev := Handle(w, id, route, Ack(true, true)), w.slots[id].deviceId;
      && z.rows == w.rows + [(id, dev)] && dev in z.devices && z.devices[dev] == w.psks[id]
      && id in z.slots && z.slots[id].closed && id in z.psks && z.psks[id] == Zeros(w.psks[id]) && z.current == None
  {
  }
}
