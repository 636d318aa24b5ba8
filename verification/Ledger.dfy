/**
  The operation ledger: each (device, operation id) starts its side effect at most once,
  whatever saves fail and whenever the daemon crashes, because a pending row is on disk
  before the side effect starts and a row is forgotten only long after it completed.
 */
module Ledger {
  import opened Basics

  type Key = string

  datatype Receipt = Receipt(operationId: string, outcome: string, entities: string)

  // An error as runtimeapi.AsFault sees it.
  datatype Error =
    | NoError
    | Fault(code: string, operation: string, outcome: string, retry: string, message: string, cause: string)
    | Plain(text: string)

  datatype StoredError =
    | NoStored
    | Stored(code: string, operation: string, outcome: string, retry: string, message: string)

  datatype Result = Result(receipt: Receipt, err: Error)

  // Admitted: the row is durable, the side effect has not started. Settled: done is closed.
  datatype Phase = Admitted | Running | Settled

  datatype Record = Record(
    device: string, op: string, fingerprint: string, createdAt: int, completedAt: int, phase: Phase, result: Result)

  datatype Row =
    | Pending(device: string, op: string, fingerprint: string, createdAt: int)
    | Completed(device: string, op: string, fingerprint: string, createdAt: int,
                completedAt: int, receipt: Receipt, error: StoredError)

  datatype State = State(mem: map<Key, Record>, disk: map<Key, Row>, hasStore: bool)

  // A failed save leaves the old or the new file.
  datatype Save = Ok | FailOld | FailNew

  const MAX_REMEMBERED := 65536
  const RETENTION := 30 * 24 * 3600

  function KeyOf(device: string, op: string): Key { device + ['\0'] + op }

  function UnknownResult(op: string, cause: string): Result {
    Result(Receipt(op, "unknown", ""), UnknownFault(cause))
  }

  function UnknownFault(cause: string): Error {
    Fault("timeout", "", "unknown", "user_only", "mutation outcome is not yet known", cause)
  }

  predicate IsUnknown(res: Result, op: string) {
    res.receipt == Receipt(op, "unknown", "") && res.err.Fault? && res.err == UnknownFault(res.err.cause)
  }

  function StoreError(e: Error): StoredError {
    match e
    case NoError => NoStored
    case Fault(code, operation, outcome, retry, message, _) => Stored(code, operation, outcome, retry, message)
    case Plain(_) => Stored("internal", "", "not_applied", "never", "mutation failed")
  }

  function RestoreError(e: StoredError): Error {
    match e
    case NoStored => NoError
    case Stored(code, operation, outcome, retry, message) => Fault(code, operation, outcome, retry, message, "")
  }

  // Two answers a device cannot tell apart once one of them has been through the disk.
  ghost predicate Same(a: Result, b: Result) {
    a.receipt == b.receipt && StoreError(a.err) == StoreError(b.err)
  }

  function ToRow(r: Record): Row {
    if r.completedAt > 0
    then Completed(r.device, r.op, r.fingerprint, r.createdAt, r.completedAt, r.result.receipt,
      StoreError(r.result.err))
    else Pending(r.device, r.op, r.fingerprint, r.createdAt)
  }

  function FromRow(row: Row): Record {
    match row
    case Pending(device, op, fingerprint, createdAt) =>
      Record(device, op, fingerprint, createdAt, 0, Settled, UnknownResult(op, ""))
    case Completed(device, op, fingerprint, createdAt, completedAt, receipt, error) =>
      Record(device, op, fingerprint, createdAt, completedAt, Settled, Result(receipt, RestoreError(error)))
  }

  // ---------------------------------------------------------------- steps

  predicate Expired(r: Record, now: int) {
    r.completedAt > 0 && r.completedAt < now - RETENTION
  }

  ghost function Pruned(mem: map<Key, Record>, now: int): map<Key, Record> {
    map k | k in mem && !Expired(mem[k], now) :: mem[k]
  }

  ghost function Written(mem: map<Key, Record>): map<Key, Row> {
    map k | k in mem :: ToRow(mem[k])
  }

  ghost function Restored(disk: map<Key, Row>): map<Key, Record> {
    map k | k in disk :: FromRow(disk[k])
  }

  predicate Succeeds(hasStore: bool, save: Save) { !hasStore || save == Ok }

  ghost function DiskAfter(s: State, mem: map<Key, Record>, save: Save): map<Key, Row> {
    if s.hasStore && save != FailOld then Written(mem) else s.disk
  }

  datatype Reply = Admit | Wait | Conflict | Full | NotSaved

  ghost function BeginReply(s: State, k: Key, fingerprint: string, now: int, save: Save): Reply {
    if k in s.mem then (if s.mem[k].fingerprint != fingerprint then Conflict else Wait)
    else if |Pruned(s.mem, now)| >= MAX_REMEMBERED then Full
    else if Succeeds(s.hasStore, save) then Admit
    else NotSaved
  }

  function NewRecord(device: string, op: string, fingerprint: string, now: int): Record {
    Record(device, op, fingerprint, now, 0, Admitted, Result(Receipt("", "", ""), NoError))
  }

  ghost function Begin(s: State, device: string, op: string, fingerprint: string, now: int, save: Save): State {
    var k := KeyOf(device, op);
    var pruned := Pruned(s.mem, now);
    var tried := pruned[k := NewRecord(device, op, fingerprint, now)];
    match BeginReply(s, k, fingerprint, now, save)
    case Conflict => s
    case Wait => s
    case Full => s.(mem := pruned)
    case Admit => s.(mem := tried, disk := DiskAfter(s, tried, save))
    case NotSaved => s.(mem := pruned, disk := DiskAfter(s, tried, save))
  }

  ghost predicate Starts(s: State, k: Key) { k in s.mem && s.mem[k].phase == Admitted }

  ghost function Start(s: State, k: Key): State {
    if Starts(s, k) then s.(mem := s.mem[k := s.mem[k].(phase := Running)]) else s
  }

  function Completion(r: Record, res: Result, now: int): Record {
    r.(result := res.(receipt := res.receipt.(operationId := r.op)), completedAt := now, phase := Settled)
  }

  // The in-memory record after its completion could not be saved.
  function Forgotten(r: Record): Record {
    r.(result := UnknownResult(r.op, "save failed"), completedAt := 0, phase := Settled)
  }

  ghost function Finish(s: State, k: Key, res: Result, now: int, save: Save): State {
    if k !in s.mem || s.mem[k].phase != Running then s
    else
      var tried := s.mem[k := Completion(s.mem[k], res, now)];
      s.(mem := if Succeeds(s.hasStore, save) then tried else s.mem[k := Forgotten(s.mem[k])],
         disk := DiskAfter(s, tried, save))
  }

  ghost function Restart(s: State, now: int): State {
    s.(mem := Pruned(Restored(s.disk), now))
  }

  datatype Event =
    | EvBegin(device: string, op: string, fingerprint: string, now: int, save: Save)
    | EvStart(k: Key)
    | EvFinish(k: Key, res: Result, now: int, save: Save)
    | EvRestart(now: int)

  ghost function Step(s: State, e: Event): State {
    match e
    case EvBegin(device, op, fingerprint, now, save) => Begin(s, device, op, fingerprint, now, save)
    case EvStart(k) => Start(s, k)
    case EvFinish(k, res, now, save) => Finish(s, k, res, now, save)
    case EvRestart(now) => Restart(s, now)
  }

  ghost function Run(s: State, events: seq<Event>): State
    decreases |events|
  {
    if events == [] then s else Run(Step(s, events[0]), events[1..])
  }

  // Only a ledger with a store outlives its process.
  ghost predicate Fair(s: State, events: seq<Event>) {
    s.hasStore || forall i :: 0 <= i < |events| ==> !events[i].EvRestart?
  }

  // ---------------------------------------------------------------- the invariant

  // What the file says about a record in memory.
  ghost predicate Backed(r: Record, row: Row) {
    && row.fingerprint == r.fingerprint && row.device == r.device && row.op == r.op
    && (r.phase != Settled ==> row.Pending?)
    && (r.completedAt > 0 ==> row == ToRow(r))
  }

  ghost predicate RecordOk(k: Key, r: Record) {
    k == KeyOf(r.device, r.op) && (r.phase != Settled ==> r.completedAt == 0)
  }

  ghost predicate MemOk(mem: map<Key, Record>) {
    |mem| <= MAX_REMEMBERED && forall k :: k in mem ==> RecordOk(k, mem[k])
  }

  ghost predicate DiskOk(disk: map<Key, Row>) {
    |disk| <= MAX_REMEMBERED && forall k :: k in disk ==> k == KeyOf(disk[k].device, disk[k].op)
  }

  ghost predicate AllBacked(mem: map<Key, Record>, disk: map<Key, Row>) {
    forall k :: k in mem ==> k in disk && Backed(mem[k], disk[k])
  }

  ghost predicate Inv(s: State) {
    MemOk(s.mem) && (s.hasStore ==> DiskOk(s.disk) && AllBacked(s.mem, s.disk))
  }

  lemma PrunedFewer(mem: map<Key, Record>, now: int)
    ensures |Pruned(mem, now)| <= |mem|
  {
    assert |Pruned(mem, now).Keys| <= |mem.Keys| by { Subset(Pruned(mem, now).Keys, mem.Keys); }
  }

  lemma SameSize(mem: map<Key, Record>, disk: map<Key, Row>)
    ensures |Written(mem)| == |mem| && |Restored(disk)| == |disk|
  {
    assert Written(mem).Keys == mem.Keys && Restored(disk).Keys == disk.Keys;
    assert |Written(mem).Keys| == |mem.Keys| && |Restored(disk).Keys| == |disk.Keys|;
  }

  lemma WrittenOk(mem: map<Key, Record>)
    requires MemOk(mem)
    ensures DiskOk(Written(mem)) && AllBacked(mem, Written(mem))
  {
    SameSize(mem, map[]);
  }

  lemma PrunedOk(mem: map<Key, Record>, now: int, disk: map<Key, Row>)
    requires MemOk(mem)
    ensures MemOk(Pruned(mem, now)) && Pruned(mem, now).Keys <= mem.Keys
    ensures AllBacked(mem, disk) ==> AllBacked(Pruned(mem, now), disk)
  {
    PrunedFewer(mem, now);
  }

  lemma AddedOk(mem: map<Key, Record>, k: Key, r: Record)
    requires MemOk(mem) && RecordOk(k, r) && (k in mem || |mem| < MAX_REMEMBERED)
    ensures MemOk(mem[k := r])
  {
    var more := mem[k := r];
    assert more.Keys == mem.Keys + {k} && |more| == |more.Keys| && |mem| == |mem.Keys|;
  }

  lemma BeginKeeps(s: State, device: string, op: string, fingerprint: string, now: int, save: Save)
    requires Inv(s)
    ensures Inv(Begin(s, device, op, fingerprint, now, save))
  {
    hide MemOk, DiskOk, AllBacked, Pruned, Written;
    var k := KeyOf(device, op);
    var pruned := Pruned(s.mem, now);
    var tried := pruned[k := NewRecord(device, op, fingerprint, now)];
    PrunedOk(s.mem, now, s.disk);
    if |pruned| < MAX_REMEMBERED {
      AddedOk(pruned, k, NewRecord(device, op, fingerprint, now));
      WrittenOk(tried);
      AddedBacked(pruned, k, NewRecord(device, op, fingerprint, now), Written(tried));
    }
  }

  lemma AddedBacked(mem: map<Key, Record>, k: Key, r: Record, disk: map<Key, Row>)
    ensures AllBacked(mem[k := r], disk) && k !in mem ==> AllBacked(mem, disk)
    ensures AllBacked(mem, disk) && k in disk && Backed(r, disk[k]) ==> AllBacked(mem[k := r], disk)
  {
    var more := mem[k := r];
    assert forall x :: x in mem && x != k ==> x in more && more[x] == mem[x];
  }

  lemma RunningFacts(s: State, k: Key, res: Result, now: int)
    requires Inv(s) && k in s.mem && s.mem[k].phase == Running
    ensures RecordOk(k, Completion(s.mem[k], res, now)) && RecordOk(k, Forgotten(s.mem[k]))
    ensures s.hasStore ==> k in s.disk && Backed(Forgotten(s.mem[k]), s.disk[k])
    ensures var tried := s.mem[k := Completion(s.mem[k], res, now)];
      k in Written(tried) && Backed(Forgotten(s.mem[k]), Written(tried)[k])
  {
    assert RecordOk(k, s.mem[k]);
    assert s.hasStore ==> Backed(s.mem[k], s.disk[k]);
  }

  lemma FinishKeeps(s: State, k: Key, res: Result, now: int, save: Save)
    requires Inv(s)
    ensures Inv(Finish(s, k, res, now, save))
  {
    hide MemOk, DiskOk, AllBacked, Written, RecordOk, Backed, Forgotten, Completion;
    if k in s.mem && s.mem[k].phase == Running {
      RunningFacts(s, k, res, now);
      var tried := s.mem[k := Completion(s.mem[k], res, now)];
      assert s.mem[k := Forgotten(s.mem[k])] == tried[k := Forgotten(s.mem[k])];
      AddedOk(s.mem, k, Completion(s.mem[k], res, now));
      AddedOk(s.mem, k, Forgotten(s.mem[k]));
      WrittenOk(tried);
      AddedBacked(s.mem, k, Forgotten(s.mem[k]), s.disk);
      AddedBacked(tried, k, Forgotten(s.mem[k]), Written(tried));
    }
  }

  lemma StartKeeps(s: State, k: Key)
    requires Inv(s)
    ensures Inv(Start(s, k))
  {
    if Starts(s, k) {
      var r := s.mem[k].(phase := Running);
      assert RecordOk(k, r);
      assert s.hasStore ==> k in s.disk && Backed(r, s.disk[k]);
      hide MemOk, DiskOk, AllBacked;
      AddedOk(s.mem, k, r);
      AddedBacked(s.mem, k, r, s.disk);
    }
  }

  lemma RestoredOk(disk: map<Key, Row>)
    requires DiskOk(disk)
    ensures MemOk(Restored(disk)) && AllBacked(Restored(disk), disk)
  {
    SameSize(map[], disk);
    forall k | k in disk ensures RecordOk(k, FromRow(disk[k])) && Backed(FromRow(disk[k]), disk[k]) {
      StoreRestore(disk[k]);
    }
  }

  lemma RestartKeeps(s: State, now: int)
    requires Inv(s) && s.hasStore
    ensures Inv(Restart(s, now))
  {
    hide MemOk, DiskOk, AllBacked, Restored, Pruned;
    RestoredOk(s.disk);
    PrunedOk(Restored(s.disk), now, s.disk);
  }

  // A completed row survives the way to memory and back.
  lemma StoreRestore(row: Row)
    ensures FromRow(row).completedAt > 0 ==> ToRow(FromRow(row)) == row
  {
  }

  lemma StepKeeps(s: State, e: Event)
    requires Inv(s) && (e.EvRestart? ==> s.hasStore)
    ensures Inv(Step(s, e)) && Step(s, e).hasStore == s.hasStore
  {
    hide Inv;
    match e
    case EvBegin(device, op, fingerprint, now, save) => BeginKeeps(s, device, op, fingerprint, now, save);
    case EvStart(k) => StartKeeps(s, k);
    case EvFinish(k, res, now, save) => FinishKeeps(s, k, res, now, save);
    case EvRestart(now) => RestartKeeps(s, now);
  }

  lemma {:induction false} RunKeeps(s: State, events: seq<Event>)
    requires Inv(s) && Fair(s, events)
    ensures Inv(Run(s, events))
    decreases |events|
  {
    if events != [] {
      StepKeeps(s, events[0]);
      RunKeeps(Step(s, events[0]), events[1..]);
    }
  }

  // ---------------------------------------------------------------- at most once

  ghost predicate Forgets(s: State, e: Event, k: Key) { k in s.mem && k !in Step(s, e).mem }

  ghost predicate StartsBy(s: State, e: Event, k: Key) { e == EvStart(k) && Starts(s, k) }

  ghost function StartCount(s: State, events: seq<Event>, k: Key): nat
    decreases |events|
  {
    if events == [] then 0
    else (if StartsBy(s, events[0], k) then 1 else 0) + StartCount(Step(s, events[0]), events[1..], k)
  }

  ghost function ForgetCount(s: State, events: seq<Event>, k: Key): nat
    decreases |events|
  {
    if events == [] then 0
    else (if Forgets(s, events[0], k) then 1 else 0) + ForgetCount(Step(s, events[0]), events[1..], k)
  }

  // The side effect may have started.
  ghost predicate Spent(s: State, k: Key) { k in s.mem && s.mem[k].phase != Admitted }

  // A key is forgotten only if its row completed more than the retention ago. A pending
  // row is never forgotten.
  lemma OnlyOldCompletedRowsGo(s: State, e: Event, k: Key)
    requires Inv(s) && (e.EvRestart? ==> s.hasStore) && Forgets(s, e, k)
    ensures e.EvBegin? || e.EvRestart?
    ensures e.EvBegin? ==> s.mem[k].phase == Settled && 0 < s.mem[k].completedAt < e.now - RETENTION
    ensures e.EvRestart? ==> k in s.disk && s.disk[k].Completed? && 0 < s.disk[k].completedAt < e.now - RETENTION
  {
  }

  lemma StartIsDurable(s: State, k: Key)
    requires Inv(s) && Starts(s, k) && s.hasStore
    ensures k in s.disk && s.disk[k].Pending? && s.disk[k].fingerprint == s.mem[k].fingerprint
  {
  }

  // How one step treats a key that it does not forget.
  ghost predicate Carried(s: State, e: Event, k: Key)
    requires k in s.mem && k in Step(s, e).mem
  {
    var r := Step(s, e).mem[k];
    match e
    case EvBegin(_, _, _, _, _) => r == s.mem[k]
    case EvStart(x) => r == s.mem[k] || (x == k && Starts(s, k) && r == s.mem[k].(phase := Running))
    case EvFinish(x, res, now, _) =>
      || r == s.mem[k]
      || (x == k && s.mem[k].phase == Running && (r == Completion(s.mem[k], res, now) || r == Forgotten(s.mem[k])))
    case EvRestart(_) => k in s.disk && r == FromRow(s.disk[k])
  }

  lemma StepCarries(s: State, e: Event, k: Key)
    requires Inv(s) && (e.EvRestart? ==> s.hasStore) && k in s.mem && !Forgets(s, e, k)
    ensures Carried(s, e, k)
  {
  }

  lemma StepSpends(s: State, e: Event, k: Key)
    requires Inv(s) && (e.EvRestart? ==> s.hasStore)
    ensures Spent(s, k) && !Forgets(s, e, k) ==> Spent(Step(s, e), k)
    ensures StartsBy(s, e, k) ==> !Spent(s, k) && Spent(Step(s, e), k) && !Forgets(s, e, k)
  {
    if k in s.mem && !Forgets(s, e, k) { StepCarries(s, e, k); }
  }

  // Over any run: one start, and one more for each time the key was forgotten.
  lemma {:induction false} AtMostOnce(s: State, events: seq<Event>, k: Key)
    requires Inv(s) && Fair(s, events)
    ensures StartCount(s, events, k) + (if Spent(s, k) then 1 else 0) <= 1 + ForgetCount(s, events, k)
    decreases |events|
  {
    if events != [] {
      StepKeeps(s, events[0]);
      StepSpends(s, events[0], k);
      hide Inv, Step, Spent, Forgets, StartsBy;
      AtMostOnce(Step(s, events[0]), events[1..], k);
    }
  }

  // A new intent that gets its row on disk is let start, once.
  lemma AdmittedMayStart(s: State, device: string, op: string, fingerprint: string, now: int, save: Save)
    requires Inv(s) && BeginReply(s, KeyOf(device, op), fingerprint, now, save) == Admit
    ensures var k, t := KeyOf(device, op), Begin(s, device, op, fingerprint, now, save);
      && Starts(t, k) && t.mem[k].fingerprint == fingerprint && !Starts(Start(t, k), k) && Spent(Start(t, k), k)
      && (s.hasStore ==> k in t.disk && t.disk[k] == Pending(device, op, fingerprint, now))
      && forall x :: x in s.mem && !Expired(s.mem[x], now) ==> x in t.mem && t.mem[x] == s.mem[x]
  {
  }

  // ---------------------------------------------------------------- answers

  ghost predicate RowAnswers(row: Row, res: Result) {
    row.Completed? ==> row.receipt == res.receipt && row.error == StoreError(res.err)
  }

  // The record answers unknown or the result of the run, and so would the file.
  ghost predicate Answers(s: State, k: Key, res: Result) {
    && k in s.mem && s.mem[k].phase == Settled
    && (IsUnknown(s.mem[k].result, s.mem[k].op) || Same(s.mem[k].result, res))
    && (s.hasStore ==> k in s.disk && RowAnswers(s.disk[k], res))
  }

  lemma FinishAnswers(s: State, k: Key, res: Result, now: int, save: Save)
    requires Inv(s) && k in s.mem && s.mem[k].phase == Running
    ensures Answers(Finish(s, k, res, now, save), k, Result(res.receipt.(operationId := s.mem[k].op), res.err))
    ensures Succeeds(s.hasStore, save) ==>
              Finish(s, k, res, now, save).mem[k].result == Result(res.receipt.(operationId := s.mem[k].op), res.err)
    ensures !Succeeds(s.hasStore, save) ==> IsUnknown(Finish(s, k, res, now, save).mem[k].result, s.mem[k].op)
  {
  }

  lemma SaveRow(s: State, mem: map<Key, Record>, save: Save, k: Key)
    requires k in s.disk && k in mem
    ensures k in DiskAfter(s, mem, save)
    ensures DiskAfter(s, mem, save)[k] == s.disk[k] || DiskAfter(s, mem, save)[k] == ToRow(mem[k])
  {
  }

  // A save rewrites a settled key's row from its record, or leaves it.
  lemma StepRow(s: State, e: Event, k: Key)
    requires Inv(s) && s.hasStore && k in s.mem && s.mem[k].phase == Settled && !Forgets(s, e, k)
    ensures k in Step(s, e).disk && (Step(s, e).disk[k] == s.disk[k] || Step(s, e).disk[k] == ToRow(s.mem[k]))
  {
    assert k in s.disk;
    hide Inv, ToRow, DiskAfter, Expired;
    match e
    case EvBegin(device, op, fingerprint, now, save) =>
      var tried := Pruned(s.mem, now)[KeyOf(device, op) := NewRecord(device, op, fingerprint, now)];
      if k in tried { SaveRow(s, tried, save, k); }
    case EvStart(x) =>
    case EvFinish(x, res, now, save) =>
      if x in s.mem { SaveRow(s, s.mem[x := Completion(s.mem[x], res, now)], save, k); }
    case EvRestart(now) =>
  }

  lemma StepAnswers(s: State, e: Event, k: Key, res: Result)
    requires Inv(s) && (e.EvRestart? ==> s.hasStore) && Answers(s, k, res) && !Forgets(s, e, k)
    ensures Answers(Step(s, e), k, res)
  {
    assert s.hasStore ==> Backed(s.mem[k], s.disk[k]);
    StepKeeps(s, e);
    hide Inv, Step, Forgets;
    StepCarries(s, e, k);
    if s.hasStore { StepRow(s, e, k); }
  }

  // From the end of a run on, the key answers unknown or what that run returned, over any
  // further failures and restarts, until it is forgotten.
  lemma {:induction false} AnswerIsTheOutcome(s: State, events: seq<Event>, k: Key, res: Result)
    requires Inv(s) && Fair(s, events) && Answers(s, k, res) && ForgetCount(s, events, k) == 0
    ensures Answers(Run(s, events), k, res)
    decreases |events|
  {
    if events != [] {
      StepKeeps(s, events[0]);
      StepAnswers(s, events[0], k, res);
      hide Inv, Step, Answers, Forgets;
      AnswerIsTheOutcome(Step(s, events[0]), events[1..], k, res);
    }
  }

  // A saved completion is the answer for good: same receipt, same error up to what the
  // file keeps of it, same fingerprint.
  ghost predicate SavedAs(s: State, k: Key, fingerprint: string, res: Result) {
    && k in s.mem && s.mem[k].phase == Settled && s.mem[k].completedAt > 0
    && s.mem[k].fingerprint == fingerprint && Same(s.mem[k].result, res)
  }

  lemma StepSaved(s: State, e: Event, k: Key, fingerprint: string, res: Result)
    requires Inv(s) && (e.EvRestart? ==> s.hasStore) && SavedAs(s, k, fingerprint, res) && !Forgets(s, e, k)
    ensures SavedAs(Step(s, e), k, fingerprint, res)
  {
    StepCarries(s, e, k);
    assert s.hasStore ==> Backed(s.mem[k], s.disk[k]);
  }

  lemma {:induction false} SavedIsForever(s: State, events: seq<Event>, k: Key, fingerprint: string, res: Result)
    requires Inv(s) && Fair(s, events) && SavedAs(s, k, fingerprint, res) && ForgetCount(s, events, k) == 0
    ensures SavedAs(Run(s, events), k, fingerprint, res)
    decreases |events|
  {
    if events != [] {
      StepKeeps(s, events[0]);
      StepSaved(s, events[0], k, fingerprint, res);
      hide Inv, Step, SavedAs, Forgets;
      SavedIsForever(Step(s, events[0]), events[1..], k, fingerprint, res);
    }
  }

  // A key keeps its fingerprint for as long as it is known, so a different intent gets a
  // conflict all that time.
  lemma {:induction false} FingerprintIsForever(s: State, events: seq<Event>, k: Key)
    requires Inv(s) && Fair(s, events) && k in s.mem && ForgetCount(s, events, k) == 0
    ensures k in Run(s, events).mem && Run(s, events).mem[k].fingerprint == s.mem[k].fingerprint
    decreases |events|
  {
    if events != [] {
      StepKeeps(s, events[0]);
      StepCarries(s, events[0], k);
      assert events[0].EvRestart? ==> Backed(s.mem[k], s.disk[k]);
      assert Step(s, events[0]).mem[k].fingerprint == s.mem[k].fingerprint;
      hide Inv, Step;
      FingerprintIsForever(Step(s, events[0]), events[1..], k);
    }
  }

  // From its admission until it is forgotten, whatever starts, finishes, fails to save or
  // restarts in between, an intent is started once at most; the same intent again is answered
  // from its record, a different one under its key gets a conflict, and neither leaves a trace.
  lemma RepeatsRunNothing(s: State, device: string, op: string, fingerprint: string, now: int, save: Save,
                          events: seq<Event>, again: string, later: int, save': Save)
    requires Inv(s) && BeginReply(s, KeyOf(device, op), fingerprint, now, save) == Admit
    requires Fair(s, events)
        && ForgetCount(Begin(s, device, op, fingerprint, now, save), events, KeyOf(device, op)) == 0
    ensures var k, t := KeyOf(device, op), Begin(s, device, op, fingerprint, now, save);
      var u := Run(t, events);
      && StartCount(t, events, k) <= 1
      && Begin(u, device, op, again, later, save') == u
      && BeginReply(u, k, again, later, save') == if again == fingerprint then Wait else Conflict
  {
    var k, t := KeyOf(device, op), Begin(s, device, op, fingerprint, now, save);
    BeginKeeps(s, device, op, fingerprint, now, save);
    AdmittedMayStart(s, device, op, fingerprint, now, save);
    FingerprintIsForever(t, events, k);
    AtMostOnce(t, events, k);
  }

  // A crash while the side effect may be under way leaves an unknown answer.
  lemma CrashAnswersUnknown(s: State, k: Key, now: int)
    requires Inv(s) && s.hasStore && k in s.mem && s.mem[k].phase != Settled
    ensures k in Restart(s, now).mem && s.disk[k].Pending?
    ensures Restart(s, now).mem[k].phase == Settled && IsUnknown(Restart(s, now).mem[k].result, s.mem[k].op)
  {
    assert Backed(s.mem[k], s.disk[k]);
  }

  // Ids of devices hold no NUL, so a key says which device and which operation it is for.
  lemma KeyIsInjective(d: string, o: string, d': string, o': string)
    requires '\0' !in d && '\0' !in d' && KeyOf(d, o) == KeyOf(d', o')
    ensures d == d' && o == o'
  {
    var k := KeyOf(d, o);
    assert k[|d|] == '\0' && k[|d'|] == '\0';
    assert forall i :: 0 <= i < |d| ==> k[i] == d[i] && d[i] in d;
    assert forall i :: 0 <= i < |d'| ==> k[i] == d'[i] && d'[i] in d';
    assert |d| == |d'|;
    assert d == k[..|d|] && d' == k[..|d|];
    assert o == k[|d| + 1..] && o' == k[|d| + 1..];
  }
}
