/**
  Terminal commands of one phone session. Handlers run on their own goroutines; a step here is
  what one of them does between two lock operations, and any interleaving of steps is a run.
 */
module Terminal {
  import opened Basics

  type Tid = nat
  type SlotId = nat

  // done: the sequence numbers of the commands that ran without error, in order.
  datatype Slot = Slot(next: nat, lock: Option<Tid>, done: seq<nat>)

  datatype Thread =
    | Idle
    | Looked(slot: SlotId, seqno: nat)           // has read s.terminal
    | Locked(slot: SlotId, seqno: nat)           // holds commandMu
    | Checked(slot: SlotId, seqno: nat)          // holds it, and was next in an attached slot
    | Ran(slot: SlotId, seqno: nat, ok: bool)    // holds it, and the command has run
    | Closing(slot: SlotId, detached: bool)      // will close the controller; detached: s.terminal cleared already
    | CloseLocked(slot: SlotId, detached: bool)

  datatype State = State(terminal: Option<SlotId>, slots: map<SlotId, Slot>, threads: map<Tid, Thread>)

  datatype Event =
    | EvOpen(id: SlotId)
    | EvLook(t: Tid, id: SlotId, seqno: nat)
    | EvLock(t: Tid)
    | EvCheck(t: Tid)
    | EvRun(t: Tid, ok: bool)
    | EvFinish(t: Tid)
    | EvDetach(t: Tid, id: SlotId)     // closeTerminalSlot and closeSessionTerminal: without commandMu
    | EvAskClose(t: Tid, id: SlotId)   // rpcTerminalClose: takes commandMu first
    | EvClose(t: Tid)

  ghost function At(s: State, t: Tid): Thread { if t in s.threads then s.threads[t] else Idle }

  ghost predicate Holds(p: Thread) { p.Locked? || p.Checked? || p.Ran? || p.CloseLocked? }

  ghost predicate Waits(p: Thread) { p.Looked? || p.Closing? }

  ghost function Go(s: State, t: Tid, p: Thread): State { s.(threads := s.threads[t := p]) }

  ghost function SetSlot(s: State, id: SlotId, slot: Slot): State { s.(slots := s.slots[id := slot]) }

  ghost function Release(s: State, t: Tid, slot: Slot): State
    requires Holds(At(s, t))
  {
    SetSlot(Go(s, t, Idle), At(s, t).slot, slot.(lock := None))
  }

  ghost function Acquired(p: Thread): Thread
    requires Waits(p)
  {
    if p.Looked? then Locked(p.slot, p.seqno) else CloseLocked(p.slot, p.detached)
  }

  ghost function Step(s: State, e: Event): State {
    match e
    case EvOpen(id) =>
      if s.terminal.Some? || id in s.slots then s
      else s.(terminal := Some(id), slots := s.slots[id := Slot(1, None, [])])
    case EvLook(t, id, seqno) =>
      if At(s, t).Idle? && s.terminal == Some(id) then Go(s, t, Looked(id, seqno)) else s
    case EvLock(t) =>
      var p := At(s, t);
      if Waits(p) && p.slot in s.slots && s.slots[p.slot].lock == None
      then SetSlot(Go(s, t, Acquired(p)), p.slot, s.slots[p.slot].(lock := Some(t)))
      else s
    case EvCheck(t) =>
      var p := At(s, t);
      if !p.Locked? || p.slot !in s.slots then s
      else if s.terminal == Some(p.slot) && p.seqno == s.slots[p.slot].next then Go(s, t, Checked(p.slot, p.seqno))
      else Release(s, t, s.slots[p.slot])
    case EvRun(t, ok) =>
      var p := At(s, t);
      if !p.Checked? || p.slot !in s.slots then s
      else
        var slot := s.slots[p.slot];
        SetSlot(Go(s, t, Ran(p.slot, p.seqno, ok)), p.slot, if ok then slot.(done := slot.done + [p.seqno]) else slot)
    case EvFinish(t) =>
      var p := At(s, t);
      if !p.Ran? || p.slot !in s.slots then s
      else
        var slot := s.slots[p.slot];
        Release(s, t, if p.ok && s.terminal == Some(p.slot) then slot.(next := slot.next + 1) else slot)
    case EvDetach(t, id) =>
      if At(s, t).Idle? && s.terminal == Some(id) then Go(s, t, Closing(id, true)).(terminal := None) else s
    case EvAskClose(t, id) =>
      if At(s, t).Idle? && s.terminal == Some(id) then Go(s, t, Closing(id, false)) else s
    case EvClose(t) =>
      var p := At(s, t);
      if !p.CloseLocked? || p.slot !in s.slots then s
      else
        var u := Release(s, t, s.slots[p.slot]);
        if !p.detached && s.terminal == Some(p.slot) then u.(terminal := None) else u
  }

  ghost function Run(s: State, events: seq<Event>): State
    decreases |events|
  {
    if events == [] then s else Run(Step(s, events[0]), events[1..])
  }

  // ---------------------------------------------------------------- the invariant

  ghost predicate Counting(done: seq<nat>) {
    forall i :: 0 <= i < |done| ==> done[i] == i + 1
  }

  // How the successes of a slot relate to its counter, by what its lock holder is doing.
  ghost predicate SlotOk(slot: Slot, attached: bool, holder: Thread) {
    && Counting(slot.done) && slot.next >= 1
    && (holder.Checked? ==> holder.seqno == slot.next && |slot.done| == slot.next - 1)
    && (holder.Ran? ==> holder.seqno == slot.next && |slot.done| == if holder.ok then slot.next else slot.next - 1)
    && (!holder.Ran? ==> |slot.done| == slot.next - 1 || (!attached && |slot.done| == slot.next))
  }

  ghost function Holder(s: State, id: SlotId): Thread
    requires id in s.slots
  {
    if s.slots[id].lock.Some? then At(s, s.slots[id].lock.value) else Idle
  }

  // Whoever holds a lock is the one the slot says, and the other way round.
  ghost predicate LocksOk(s: State) {
    && (forall t: Tid :: Holds(At(s, t)) ==> At(s, t).slot in s.slots && s.slots[At(s, t).slot].lock == Some(t))
    && (forall id: SlotId :: id in s.slots && s.slots[id].lock.Some? ==>
          Holds(At(s, s.slots[id].lock.value)) && At(s, s.slots[id].lock.value).slot == id)
  }

  ghost predicate Inv(s: State) {
    && LocksOk(s) && (s.terminal.Some? ==> s.terminal.value in s.slots)
    && forall id: SlotId :: id in s.slots ==> SlotOk(s.slots[id], s.terminal == Some(id), Holder(s, id))
  }

  // A thread that takes no lock moves.
  lemma GoKeeps(s: State, t: Tid, p: Thread)
    requires Inv(s) && !Holds(At(s, t)) && !Holds(p)
    ensures Inv(Go(s, t, p))
  {
    var u := Go(s, t, p);
    assert forall x: Tid :: x != t ==> At(u, x) == At(s, x);
  }

  lemma LockKeeps(s: State, t: Tid)
    requires Inv(s)
    ensures Inv(Step(s, EvLock(t)))
  {
    var p := At(s, t);
    if Waits(p) && p.slot in s.slots && s.slots[p.slot].lock == None {
      var u := Step(s, EvLock(t));
      assert forall x: Tid :: x != t ==> At(u, x) == At(s, x);
      assert SlotOk(s.slots[p.slot], s.terminal == Some(p.slot), Idle);
    }
  }

  // A lock holder moves on, changing its slot at most.
  lemma MoveKeeps(s: State, t: Tid, p: Thread, slot: Slot)
    requires Inv(s) && Holds(At(s, t)) && Holds(p) && p.slot == At(s, t).slot
    requires slot.lock == Some(t) && SlotOk(slot, s.terminal == Some(p.slot), p)
    ensures Inv(SetSlot(Go(s, t, p), p.slot, slot))
  {
    var u := SetSlot(Go(s, t, p), p.slot, slot);
    assert forall x: Tid :: x != t ==> At(u, x) == At(s, x);
    forall id: SlotId | id in u.slots && id != p.slot ensures Holder(u, id) == Holder(s, id) {
    }
  }

  lemma ReleaseKeeps(s: State, t: Tid, slot: Slot)
    requires Inv(s) && Holds(At(s, t)) && SlotOk(slot, s.terminal == Some(At(s, t).slot), Idle)
    ensures Inv(Release(s, t, slot))
  {
    var u := Release(s, t, slot);
    assert forall x: Tid :: x != t ==> At(u, x) == At(s, x);
  }

  lemma DetachKeeps(s: State)
    requires Inv(s)
    ensures Inv(s.(terminal := None))
  {
    var u := s.(terminal := None);
    assert forall x: Tid :: At(u, x) == At(s, x);
    forall id: SlotId | id in u.slots ensures SlotOk(u.slots[id], false, Holder(u, id)) {
      assert Holder(u, id) == Holder(s, id) && SlotOk(s.slots[id], s.terminal == Some(id), Holder(s, id));
    }
  }

  lemma OpenKeeps(s: State, id: SlotId)
    requires Inv(s)
    ensures Inv(Step(s, EvOpen(id)))
  {
    if s.terminal == None && id !in s.slots {
      var u := Step(s, EvOpen(id));
      assert forall x: Tid :: At(u, x) == At(s, x);
      forall x: SlotId | x in u.slots ensures SlotOk(u.slots[x], u.terminal == Some(x), Holder(u, x)) {
        if x != id { assert Holder(u, x) == Holder(s, x); }
      }
    }
  }

  // What the invariant says of a lock holder and its slot.
  lemma HolderFacts(s: State, t: Tid)
    requires Inv(s) && Holds(At(s, t))
    ensures At(s, t).slot in s.slots && s.slots[At(s, t).slot].lock == Some(t)
    ensures SlotOk(s.slots[At(s, t).slot], s.terminal == Some(At(s, t).slot), At(s, t))
  {
    assert Holder(s, At(s, t).slot) == At(s, t);
  }

  lemma CheckKeeps(s: State, t: Tid)
    requires Inv(s)
    ensures Inv(Step(s, EvCheck(t)))
  {
    hide Inv;
    var p := At(s, t);
    if p.Locked? {
      HolderFacts(s, t);
      var slot := s.slots[p.slot];
      if s.terminal == Some(p.slot) && p.seqno == slot.next {
        MoveKeeps(s, t, Checked(p.slot, p.seqno), slot);
        assert SetSlot(Go(s, t, Checked(p.slot, p.seqno)), p.slot, slot) == Step(s, EvCheck(t)) by {
          assert s.slots[p.slot := slot] == s.slots;
        }
      } else {
        ReleaseKeeps(s, t, slot);
      }
    }
  }

  lemma RunStepKeeps(s: State, t: Tid, ok: bool)
    requires Inv(s)
    ensures Inv(Step(s, EvRun(t, ok)))
  {
    hide Inv;
    var p := At(s, t);
    if p.Checked? {
      HolderFacts(s, t);
      var slot := s.slots[p.slot];
      MoveKeeps(s, t, Ran(p.slot, p.seqno, ok), if ok then slot.(done := slot.done + [p.seqno]) else slot);
    }
  }

  lemma FinishKeeps(s: State, t: Tid)
    requires Inv(s)
    ensures Inv(Step(s, EvFinish(t)))
  {
    hide Inv;
    var p := At(s, t);
    if p.Ran? {
      HolderFacts(s, t);
      var slot := s.slots[p.slot];
      ReleaseKeeps(s, t, if p.ok && s.terminal == Some(p.slot) then slot.(next := slot.next + 1) else slot);
    }
  }

  lemma CloseKeeps(s: State, t: Tid)
    requires Inv(s)
    ensures Inv(Step(s, EvClose(t)))
  {
    hide Inv;
    var p := At(s, t);
    if p.CloseLocked? {
      HolderFacts(s, t);
      ReleaseKeeps(s, t, s.slots[p.slot]);
      DetachKeeps(Release(s, t, s.slots[p.slot]));
    }
  }

  lemma StepKeeps(s: State, e: Event)
    requires Inv(s)
    ensures Inv(Step(s, e))
  {
    hide Inv;
    match e
    case EvOpen(id) => OpenKeeps(s, id);
    case EvLook(t, id, seqno) => if At(s, t).Idle? { GoKeeps(s, t, Looked(id, seqno)); }
    case EvLock(t) => LockKeeps(s, t);
    case EvCheck(t) => CheckKeeps(s, t);
    case EvRun(t, ok) => RunStepKeeps(s, t, ok);
    case EvFinish(t) => FinishKeeps(s, t);
    case EvDetach(t, id) =>
      if At(s, t).Idle? {
        GoKeeps(s, t, Closing(id, true));
        DetachKeeps(Go(s, t, Closing(id, true)));
      }
    case EvAskClose(t, id) => if At(s, t).Idle? { GoKeeps(s, t, Closing(id, false)); }
    case EvClose(t) => CloseKeeps(s, t);
  }

  lemma {:induction false} RunKeeps(s: State, events: seq<Event>)
    requires Inv(s)
    ensures Inv(Run(s, events))
    decreases |events|
  {
    hide Inv, Step;
    if events != [] {
      StepKeeps(s, events[0]);
      RunKeeps(Step(s, events[0]), events[1..]);
    }
  }

  const START := State(None, map[], map[])

  // ---------------------------------------------------------------- what every interleaving keeps

  // Over every interleaving a slot's successful commands are 1, 2, ..., n in order. Between
  // commands n is one less than the next number expected, or equal to it if the slot was
  // detached while its last command was running.
  lemma CommandsAreInSequence(events: seq<Event>, id: SlotId)
    requires id in Run(START, events).slots
    ensures var s := Run(START, events); var slot := s.slots[id];
      && (forall i :: 0 <= i < |slot.done| ==> slot.done[i] == i + 1)
      && (slot.lock == None ==> |slot.done| == slot.next - 1 || (s.terminal != Some(id) && |slot.done| == slot.next))
      && (s.terminal == Some(id) && slot.lock == None ==> |slot.done| == slot.next - 1)
  {
    assert Inv(START);
    RunKeeps(START, events);
  }

  // A command is let through only in an attached slot and only with the next number.
  lemma OnlyNextOfAttachedRuns(s: State, e: Event, t: Tid)
    requires Inv(s) && Step(s, e) != s && At(Step(s, e), t).Checked? && !At(s, t).Checked?
    ensures s.terminal == Some(At(Step(s, e), t).slot)
    ensures At(Step(s, e), t).slot in s.slots && At(Step(s, e), t).seqno == s.slots[At(Step(s, e), t).slot].next
  {
  }

  // A command with the next number in an attached, unlocked slot runs and is counted.
  lemma CommandRuns(s: State, t: Tid, id: SlotId)
    requires id in s.slots && At(s, t).Idle? && s.terminal == Some(id) && s.slots[id].lock == None
    ensures var n := s.slots[id].next;
      var u := Run(s, [EvLook(t, id, n), EvLock(t), EvCheck(t), EvRun(t, true), EvFinish(t)]);
      && u.terminal == s.terminal && id in u.slots && u.slots[id] == Slot(n + 1, None, s.slots[id].done + [n])
      && At(u, t).Idle?
  {
    hide Step;
    var n := s.slots[id].next;
    CommandStarts(s, t, id);
    CommandEnds(Step(Step(Step(s, EvLook(t, id, n)), EvLock(t)), EvCheck(t)), t, id);
    RunFive(s, EvLook(t, id, n), EvLock(t), EvCheck(t), EvRun(t, true), EvFinish(t));
  }

  lemma CommandStarts(s: State, t: Tid, id: SlotId)
    requires At(s, t).Idle? && s.terminal == Some(id) && id in s.slots && s.slots[id].lock == None
    ensures var n := s.slots[id].next;
      var u := Step(Step(Step(s, EvLook(t, id, n)), EvLock(t)), EvCheck(t));
      u.terminal == s.terminal && id in u.slots && u.slots[id] == s.slots[id].(lock := Some(t))
        && At(u, t) == Checked(id, n)
  {
    var n := s.slots[id].next;
    var a := Step(s, EvLook(t, id, n));
    assert a == Go(s, t, Looked(id, n));
    var b := Step(a, EvLock(t));
    assert b.slots[id] == s.slots[id].(lock := Some(t)) && At(b, t) == Locked(id, n) && b.terminal == s.terminal;
  }

  lemma CommandEnds(s: State, t: Tid, id: SlotId)
    requires id in s.slots && At(s, t) == Checked(id, s.slots[id].next) && s.terminal == Some(id)
    ensures var u, n := Step(Step(s, EvRun(t, true)), EvFinish(t)), s.slots[id].next;
      && u.terminal == s.terminal && id in u.slots && u.slots[id] == Slot(n + 1, None, s.slots[id].done + [n])
      && At(u, t).Idle?
  {
    var d := Step(s, EvRun(t, true));
    assert At(d, t) == Ran(id, s.slots[id].next, true) && d.terminal == s.terminal;
  }

  lemma RunFive(s: State, a: Event, b: Event, c: Event, d: Event, e: Event)
    ensures Run(s, [a, b, c, d, e]) == Step(Step(Step(Step(Step(s, a), b), c), d), e)
  {
    hide Step;
    var v, w, x, y := Step(s, a), Step(Step(s, a), b), Step(Step(Step(s, a), b), c),
      Step(Step(Step(Step(s, a), b), c), d);
    assert [a, b, c, d, e][1..] == [b, c, d, e] && [b, c, d, e][1..] == [c, d, e] && [c, d, e][1..] == [d, e];
    assert [d, e][1..] == [e] && [e][1..] == [];
    assert Run(y, [e]) == Run(Step(y, e), []) == Step(y, e);
    assert Run(x, [d, e]) == Run(y, [e]);
    assert Run(w, [c, d, e]) == Run(x, [d, e]);
    assert Run(v, [b, c, d, e]) == Run(w, [c, d, e]);
  }

  // A slot that was detached is never attached again.
  lemma {:induction false} DetachedIsForever(s: State, events: seq<Event>, id: SlotId)
    requires id in s.slots && s.terminal != Some(id)
    ensures id in Run(s, events).slots && Run(s, events).terminal != Some(id)
    decreases |events|
  {
    if events != [] {
      StaysDetached(s, events[0], id);
      hide Step;
      DetachedIsForever(Step(s, events[0]), events[1..], id);
    }
  }

  lemma StaysDetached(s: State, e: Event, id: SlotId)
    requires id in s.slots && s.terminal != Some(id)
    ensures id in Step(s, e).slots && Step(s, e).terminal != Some(id)
  {
  }

  // Once detached and idle, a slot runs nothing more.
  lemma {:induction false} NothingRunsAfterDetachment(s: State, events: seq<Event>, id: SlotId)
    requires Inv(s) && id in s.slots && s.terminal != Some(id) && !Holder(s, id).Checked?
    ensures id in Run(s, events).slots && Run(s, events).slots[id].done == s.slots[id].done
    decreases |events|
  {
    if events != [] {
      StepKeeps(s, events[0]);
      StaysDetached(s, events[0], id);
      DetachedIsQuiet(s, events[0], id);
      hide Step, Inv;
      NothingRunsAfterDetachment(Step(s, events[0]), events[1..], id);
    }
  }

  lemma DetachedIsQuiet(s: State, e: Event, id: SlotId)
    requires Inv(s) && id in s.slots && s.terminal != Some(id) && !Holder(s, id).Checked?
    ensures id in Step(s, e).slots && Step(s, e).slots[id].done == s.slots[id].done && !Holder(Step(s, e), id).Checked?
  {
  }

  // ---------------------------------------------------------------- a command as the daemon runs it

  datatype Reply = Conflict | Duplicate(accepted: nat) | Gap | Failed | Accepted(seqno: nat)

  // The terminal of one phone session. Every region between two lock operations is one step.
  class TerminalSession {
    var terminal: Option<SlotId>
    var slots: map<SlotId, Slot>
    ghost var threads: map<Tid, Thread>

    ghost function Abs(): State
      reads this
    {
      State(terminal, slots, threads)
    }

    // Nothing contends for commandMu; another thread may close the terminal while the command
    // runs.
    method RunCommand(t: Tid, id: SlotId, seqno: nat, ok: bool, closer: Option<Tid>)
      returns (reply: Reply, ghost events: seq<Event>)
      requires Inv(Abs()) && At(Abs(), t).Idle? && (id in slots ==> slots[id].lock == None)
      requires closer.Some? ==> closer.value != t && At(Abs(), closer.value).Idle?
      modifies this
      ensures Abs() == Run(old(Abs()), events)
      ensures old(terminal) != Some(id) ==> reply == Conflict && Abs() == old(Abs())
      ensures old(terminal) == Some(id) ==>
                var was := old(slots)[id];
                && id in slots
                && (seqno < was.next ==>
                     reply == Duplicate(was.next - 1) && slots[id] == was && terminal == old(terminal))
                && (seqno > was.next ==> reply == Gap && slots[id] == was && terminal == old(terminal))
                && (seqno == was.next ==>
                      && terminal == (if closer.Some? then None else Some(id))
                      && slots[id] == Slot(if ok && closer == None then was.next + 1 else was.next, None,
                                           was.done + if ok then [seqno] else [])
                      && reply == if !ok then Failed else if closer.Some? then Conflict else Accepted(seqno))
    {
      ghost var s := Abs();
      events := [];
      if terminal != Some(id) { return Conflict, []; }
      assert id in slots;
      Looking(t, id, seqno);
      events := [EvLook(t, id, seqno), EvLock(t)];
      RunTwo(s, EvLook(t, id, seqno), EvLock(t));
      ghost var held := Abs();
      var slot := slots[id];
      RunMore(s, events, EvCheck(t));
      events := events + [EvCheck(t)];
      if terminal != Some(id) || seqno != slot.next {
        slots := slots[id := slot.(lock := None)];
        threads := threads[t := Idle];
        assert Abs() == Step(held, EvCheck(t));
        return if seqno < slot.next then Duplicate(slot.next - 1) else Gap, events;
      }
      threads := threads[t := Checked(id, seqno)];
      assert Abs() == Step(held, EvCheck(t));
      ghost var more;
      reply, more := Execute(t, id, seqno, ok, closer);
      RunJoin(s, events, more);
      events := events + more;
    }

    method Looking(t: Tid, id: SlotId, seqno: nat)
      requires At(Abs(), t).Idle? && terminal == Some(id) && id in slots && slots[id].lock == None
      modifies this`slots, this`threads
      ensures Abs() == Step(Step(old(Abs()), EvLook(t, id, seqno)), EvLock(t))
      ensures id in slots && slots[id] == old(slots)[id].(lock := Some(t)) && At(Abs(), t) == Locked(id, seqno)
      ensures forall x: Tid :: x != t ==> At(Abs(), x) == old(At(Abs(), x))
    {
      ghost var s := Abs();
      threads := threads[t := Looked(id, seqno)];
      assert Abs() == Step(s, EvLook(t, id, seqno));
      ghost var a := Abs();
      slots := slots[id := slots[id].(lock := Some(t))];
      threads := threads[t := Locked(id, seqno)];
      assert Abs() == Step(a, EvLock(t));
    }

    method Execute(t: Tid, id: SlotId, seqno: nat, ok: bool, closer: Option<Tid>)
      returns (reply: Reply, ghost events: seq<Event>)
      requires At(Abs(), t) == Checked(id, seqno) && terminal == Some(id) && id in slots
      requires closer.Some? ==> closer.value != t && At(Abs(), closer.value).Idle?
      modifies this
      ensures Abs() == Run(old(Abs()), events)
      ensures id in slots && terminal == (if closer.Some? then None else Some(id))
      ensures var was := old(slots)[id];
        slots[id] == was.(next := if ok && closer == None then was.next + 1 else was.next, lock := None,
                          done := was.done + if ok then [seqno] else [])
      ensures reply == if !ok then Failed else if closer.Some? then Conflict else Accepted(seqno)
    {
      ghost var s := Abs();
      var slot := slots[id];
      if ok { slot := slot.(done := slot.done + [seqno]); }
      slots := slots[id := slot];
      threads := threads[t := Ran(id, seqno, ok)];
      assert Abs() == Step(s, EvRun(t, ok));
      events := [EvRun(t, ok)];
      RunOne(s, EvRun(t, ok));
      if closer.Some? {
        ghost var b := Abs();
        terminal := None;
        threads := threads[closer.value := Closing(id, true)];
        assert Abs() == Step(b, EvDetach(closer.value, id));
        RunMore(s, events, EvDetach(closer.value, id));
        events := events + [EvDetach(closer.value, id)];
      }
      ghost var c := Abs();
      var active := terminal == Some(id);
      if ok && active { slot := slot.(next := slot.next + 1); }
      slots := slots[id := slot.(lock := None)];
      threads := threads[t := Idle];
      assert Abs() == Step(c, EvFinish(t));
      RunMore(s, events, EvFinish(t));
      events := events + [EvFinish(t)];
      reply := if !ok then Failed else if !active then Conflict else Accepted(seqno);
    }
  }

  lemma RunOne(s: State, a: Event)
    ensures Run(s, [a]) == Step(s, a)
  {
    assert [a][1..] == [];
    assert Run(Step(s, a), []) == Step(s, a);
  }

  lemma {:induction false} RunMore(s: State, events: seq<Event>, e: Event)
    ensures Run(s, events + [e]) == Step(Run(s, events), e)
    decreases |events|
  {
    hide Step;
    if events == [] {
      assert events + [e] == [e];
      RunOne(s, e);
    } else {
      assert (events + [e])[1..] == events[1..] + [e];
      RunMore(Step(s, events[0]), events[1..], e);
    }
  }

  lemma RunTwo(s: State, a: Event, b: Event)
    ensures Run(s, [a, b]) == Step(Step(s, a), b)
  {
    hide Step;
    RunOne(s, a);
    RunMore(s, [a], b);
    assert [a] + [b] == [a, b];
  }

  lemma {:induction false} RunJoin(s: State, x: seq<Event>, y: seq<Event>)
    ensures Run(s, x + y) == Run(Run(s, x), y)
    decreases |x|
  {
    hide Step;
    if x == [] {
      assert x + y == y;
    } else {
      assert (x + y)[1..] == x[1..] + y;
      RunJoin(Step(s, x[0]), x[1..], y);
    }
  }

  // ---------------------------------------------------------------- frames

  const FRAME_CHUNK := 98304

  ghost function Joined(parts: seq<seq<nat>>): seq<nat> {
    if parts == [] then [] else Joined(parts[..|parts| - 1]) + parts[|parts| - 1]
  }

  lemma JoinMore(parts: seq<seq<nat>>, data: seq<nat>, from: nat, to: nat)
    requires from <= to <= |data| && Joined(parts) == data[..from]
    ensures Joined(parts + [data[from..to]]) == data[..to]
  {
    var more := parts + [data[from..to]];
    assert more[..|more| - 1] == parts && data[..from] + data[from..to] == data[..to];
  }

  lemma PartsCount(n: nat, count: nat)
    requires n > 0 && count == (n + FRAME_CHUNK - 1) / FRAME_CHUNK
    ensures count >= 1 && (count - 1) * FRAME_CHUNK < n <= count * FRAME_CHUNK
  {
  }

  // A frame goes out in pieces that join to it, full but for the last; an empty one still
  // goes out.
  method FrameParts(data: seq<nat>) returns (parts: seq<seq<nat>>)
    ensures Joined(parts) == data && |parts| >= 1
    ensures forall i :: 0 <= i < |parts| - 1 ==> |parts[i]| == FRAME_CHUNK
    ensures |parts[|parts| - 1]| <= FRAME_CHUNK && (data != [] ==> parts[|parts| - 1] != [])
  {
    hide Joined;
    var count := 1;
    if |data| > 0 {
      count := (|data| + FRAME_CHUNK - 1) / FRAME_CHUNK;
      PartsCount(|data|, count);
    }
    parts := [];
    NoParts(data);
    var index, start := 0, 0;
    while index < count
      invariant 0 <= index <= count && |parts| == index && start == index * FRAME_CHUNK
      invariant Joined(parts) == data[..if start < |data| then start else |data|]
      invariant forall i :: 0 <= i < index && i < count - 1 ==> |parts[i]| == FRAME_CHUNK
      invariant index == count ==> |parts[index - 1]| <= FRAME_CHUNK && (data != [] ==> parts[index - 1] != [])
    {
      var end := start + FRAME_CHUNK;
      if end > |data| { end := |data|; }
      assert index <= count - 1;
      assert start <= (count - 1) * FRAME_CHUNK;
      JoinMore(parts, data, start, end);
      parts := parts + [data[start..end]];
      index, start := index + 1, start + FRAME_CHUNK;
    }
  }

  lemma NoParts(data: seq<nat>)
    ensures Joined([]) == data[..0]
  {
  }
}
