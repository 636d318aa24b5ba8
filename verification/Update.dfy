/**
  Self-update with crash recovery: the files an update touches, one durable step at a time,
  with failed writes and crashes anywhere, and the boots that put things right again.

  Binaries are known by their contents; a checksum stands for the contents it was taken of.
 */
module Update {
  import opened Basics

  type Bin = nat

  datatype Phase = Idle | Downloading | Restarting | Verifying | Complete | RolledBack | Failed
  datatype Job = Job(phase: Phase, candidateHash: Bin, backupHash: Bin)
  datatype Disk = Disk(dest: Bin, backup: Option<Bin>, job: Job, pending: bool)

  // The installed bytes and the checksum-verified candidate of one update. The candidate
  // reports the target version and the installed binary an older one, so a running binary
  // has the target version exactly if it is the candidate.
  datatype Terms = Terms(prev: Bin, cand: Bin)

  // A write succeeds; fails leaving the old or the new file; or the process dies before it.
  datatype Io = Ok | FailOld | FailNew | Dies

  // What the process is about to do.
  datatype Proc =
    | Down
    | WriteBackup | SaveRestarting | WritePending | ReplaceDest | Exec | RestoreDest
    | RemovePending | SaveFailed
    | Running
    | Boot | BootSaveFailed | BootSaveVerifying | BootClear
    | Verify | ClearCompleted | Stalled
    | RollbackReplace | RollbackSave | RollbackClear

  // late: a rollback began although the journal already said complete.
  datatype State = State(disk: Disk, proc: Proc, late: bool)

  datatype Event = Advance(io: Io) | CompleteBoot(io: Io) | Timer

  function Wrote<T>(was: T, to: T, io: Io): T {
    if io == Ok || io == FailNew then to else was
  }

  function Then(s: State, disk: Disk, io: Io, next: Proc, failed: Proc): State {
    s.(disk := disk, proc := if io == Dies then Down else if io == Ok then next else failed)
  }

  function SetPhase(d: Disk, phase: Phase, io: Io): Disk { d.(job := Wrote(d.job, d.job.(phase := phase), io)) }

  // ---------------------------------------------------------------- steps

  function Install(s: State, t: Terms, io: Io): State {
    var d := s.disk;
    match s.proc
    case WriteBackup => Then(s, d.(backup := Wrote(d.backup, Some(d.dest), io)), io, SaveRestarting, SaveFailed)
    case SaveRestarting =>
      Then(s, d.(job := Wrote(d.job, Job(Restarting, t.cand, t.prev), io)), io, WritePending, SaveFailed)
    case WritePending => Then(s, d.(pending := Wrote(d.pending, true, io)), io, ReplaceDest, SaveFailed)
    case ReplaceDest => Then(s, d.(dest := Wrote(d.dest, t.cand, io)), io, Exec, RemovePending)
    case Exec => Then(s, d, io, Boot, RestoreDest)
    case RestoreDest => Then(s, d.(dest := Wrote(d.dest, t.prev, io)), io, RemovePending, RemovePending)
    case RemovePending => Then(s, d.(pending := Wrote(d.pending, false, io)), io, SaveFailed, SaveFailed)
    case SaveFailed => Then(s, d.(job := Wrote(d.job, Job(Failed, t.cand, t.prev), io)), io, Running, Running)
    case _ => s
  }

  function BootStep(s: State, t: Terms, io: Io): State {
    var d := s.disk;
    match s.proc
    case Down => s.(proc := Boot)
    case Boot =>
      s.(proc := if io == Dies then Down
                 else if d.job.phase == Verifying then RollbackReplace
                 else if d.job.phase != Restarting then BootClear
                 else if d.dest == t.cand then BootSaveVerifying
                 else BootSaveFailed)
    case BootSaveFailed => Then(s, SetPhase(d, Failed, io), io, BootClear, Down)
    case BootSaveVerifying => Then(s, SetPhase(d, Verifying, io), io, Verify, Down)
    case BootClear => Then(s, d.(pending := Wrote(d.pending, false, io)), io, Running, Down)
    case ClearCompleted => Then(s, d.(pending := Wrote(d.pending, false, io)), io, Running, Stalled)
    case RollbackReplace =>
      if (d.dest == d.job.candidateHash || d.dest == d.job.backupHash) && d.backup == Some(d.job.backupHash)
      then Then(s, d.(dest := Wrote(d.dest, d.backup.value, io)), io, RollbackSave, Down)
      else s.(proc := Down)
    case RollbackSave => Then(s, SetPhase(d, RolledBack, io), io, RollbackClear, Down)
    case RollbackClear => Then(s, d.(pending := Wrote(d.pending, false, io)), io, Boot, Down)
    case _ => s.(proc := if io == Dies then Down else s.proc)
  }

  predicate Installing(p: Proc) {
    p in {WriteBackup, SaveRestarting, WritePending, ReplaceDest, Exec, RestoreDest, RemovePending, SaveFailed}
  }

  function Step(s: State, t: Terms, e: Event): State {
    match e
    case Advance(io) => if Installing(s.proc) then Install(s, t, io) else BootStep(s, t, io)
    case CompleteBoot(io) =>
      if s.proc != Verify then s
      else Then(s, SetPhase(s.disk, Complete, io), io, ClearCompleted, Stalled)
    case Timer =>
      if s.proc == Verify || s.proc == Stalled
      then s.(proc := RollbackReplace, late := s.late || s.disk.job.phase == Complete)
      else s
  }

  function Run(s: State, t: Terms, events: seq<Event>): State
    decreases |events|
  {
    if events == [] then s else Run(Step(s, t, events[0]), t, events[1..])
  }

  // ---------------------------------------------------------------- the invariant

  // Once the journal speaks of a restart, the backup and both checksums are in place.
  ghost predicate Recoverable(d: Disk, t: Terms) {
    d.job.phase in {Restarting, Verifying, Complete, RolledBack} ==>
      d.backup == Some(t.prev) && d.job.candidateHash == t.cand && d.job.backupHash == t.prev
  }

  // What the process relies on at each point.
  ghost predicate ProcOk(d: Disk, p: Proc, t: Terms) {
    match p
    case WriteBackup => d.dest == t.prev && d.job.phase == Downloading
    case SaveRestarting => d.dest == t.prev && d.backup == Some(t.prev) && d.job.phase == Downloading
    case WritePending => d.dest == t.prev && d.job.phase == Restarting
    case ReplaceDest => d.dest == t.prev && d.job.phase == Restarting
    case Exec => d.job.phase == Restarting
    case RestoreDest => d.job.phase == Restarting
    case RemovePending => d.job.phase == Restarting
    case SaveFailed => d.job.phase in {Downloading, Restarting}
    case BootSaveFailed => d.job.phase == Restarting
    case BootSaveVerifying => d.job.phase == Restarting && d.dest == t.cand
    case Verify => d.job.phase == Verifying && d.dest == t.cand
    case ClearCompleted => d.job.phase == Complete && d.dest == t.cand
    case Stalled => d.job.phase in {Verifying, Complete} && d.dest == t.cand
    case RollbackReplace => d.job.phase in {Verifying, Complete}
    case RollbackSave => d.job.phase in {Verifying, Complete} && d.dest == t.prev
    case _ => true
  }

  ghost predicate Inv(s: State, t: Terms) {
    && s.disk.dest in {t.prev, t.cand}
    && Recoverable(s.disk, t) && ProcOk(s.disk, s.proc, t)
    && (s.disk.job.phase == RolledBack ==> s.disk.dest == t.prev)
    && (s.disk.job.phase == Complete && !s.late ==> s.disk.dest == t.cand)
    && (s.proc == RollbackReplace && s.disk.job.phase == Complete ==> s.late)
  }

  lemma InstallKeeps(s: State, t: Terms, io: Io)
    requires Inv(s, t) && Installing(s.proc)
    ensures Inv(Install(s, t, io), t)
  {
    match s.proc
    case WriteBackup =>
    case SaveRestarting =>
    case WritePending =>
    case ReplaceDest =>
    case Exec =>
    case RestoreDest =>
    case RemovePending =>
    case SaveFailed =>
  }

  lemma RollbackKeeps(s: State, t: Terms, io: Io)
    requires Inv(s, t) && s.proc in {RollbackReplace, RollbackSave, RollbackClear}
    ensures Inv(BootStep(s, t, io), t)
  {
    match s.proc
    case RollbackReplace =>
    case RollbackSave =>
    case RollbackClear =>
  }

  lemma BootStepKeeps(s: State, t: Terms, io: Io)
    requires Inv(s, t) && !Installing(s.proc)
    ensures Inv(BootStep(s, t, io), t)
  {
    if s.proc in {RollbackReplace, RollbackSave, RollbackClear} {
      RollbackKeeps(s, t, io);
    } else {
      match s.proc
      case Boot =>
      case BootSaveFailed =>
      case BootSaveVerifying =>
      case BootClear =>
      case ClearCompleted =>
      case _ =>
    }
  }

  lemma StepKeeps(s: State, t: Terms, e: Event)
    requires Inv(s, t)
    ensures Inv(Step(s, t, e), t)
  {
    hide Install, BootStep;
    if e.Advance? {
      if Installing(s.proc) { InstallKeeps(s, t, e.io); } else { BootStepKeeps(s, t, e.io); }
    }
  }

  // From any crash and any failed write: the installed binary is the previous one or the
  // candidate; rolled back means previous; and complete means candidate, unless a rollback
  // was started over a completed journal.
  lemma {:induction false} RunKeeps(s: State, t: Terms, events: seq<Event>)
    requires Inv(s, t)
    ensures Inv(Run(s, t, events), t)
    decreases |events|
  {
    hide Inv, Step;
    if events != [] {
      StepKeeps(s, t, events[0]);
      RunKeeps(Step(s, t, events[0]), t, events[1..]);
    }
  }

  ghost predicate Truthful(d: Disk, t: Terms) {
    && (d.job.phase == Complete ==> d.dest == t.cand)
    && (d.job.phase == RolledBack ==> d.dest == t.prev)
  }

  // A rollback that began over a verifying journal: it is under way, or to be done over at the
  // next boot, or done.
  ghost predicate RollingBack(s: State) {
    && !s.late && s.disk.job.phase in {Verifying, RolledBack}
    && s.proc in {Down, Boot, BootClear, Running, RollbackReplace, RollbackSave, RollbackClear}
    && (s.proc in {BootClear, Running, RollbackClear} ==> s.disk.job.phase == RolledBack)
    && (s.proc in {RollbackReplace, RollbackSave} ==> s.disk.job.phase == Verifying)
  }

  lemma RollingBackStays(s: State, t: Terms, e: Event)
    requires Inv(s, t) && RollingBack(s)
    ensures RollingBack(Step(s, t, e))
  {
    if e.Advance? {
      match s.proc
      case Boot =>
      case BootClear =>
      case RollbackReplace =>
      case RollbackSave =>
      case RollbackClear =>
      case _ =>
    }
  }

  lemma {:induction false} RollingBackIsTruthful(s: State, t: Terms, events: seq<Event>)
    requires Inv(s, t) && RollingBack(s)
    ensures Truthful(Run(s, t, events).disk, t)
    decreases |events|
  {
    if events == [] {
      assert Truthful(s.disk, t);
    } else {
      StepKeeps(s, t, events[0]);
      RollingBackStays(s, t, events[0]);
      hide Inv, Step, RollingBack;
      RollingBackIsTruthful(Step(s, t, events[0]), t, events[1..]);
    }
  }

  // The rollback timer is safe, whatever happens after it, exactly as long as the journal does
  // not say complete when it fires.
  lemma TimerIsSafeExactly(s: State, t: Terms)
    requires Inv(s, t) && !s.late && s.proc in {Verify, Stalled} && t.prev != t.cand
    ensures (forall events :: Truthful(Run(Step(s, t, Timer), t, events).disk, t)) <==> s.disk.job.phase != Complete
  {
    var u := Step(s, t, Timer);
    StepKeeps(s, t, Timer);
    if s.disk.job.phase == Complete {
      RunTwo(u, t, Advance(Ok), Advance(Dies));
      assert !Truthful(Run(u, t, [Advance(Ok), Advance(Dies)]).disk, t);
    } else {
      assert RollingBack(u);
      hide Inv, Step, Truthful, RollingBack;
      forall events ensures Truthful(Run(u, t, events).disk, t) { RollingBackIsTruthful(u, t, events); }
    }
  }

  lemma RunTwo(s: State, t: Terms, a: Event, b: Event)
    ensures Run(s, t, [a, b]) == Step(Step(s, t, a), t, b)
  {
    hide Step;
    var x := Step(s, t, a);
    assert [a, b][1..] == [b] && [b][1..] == [];
    assert Run(x, t, [b]) == Run(Step(x, t, b), t, []);
  }

  // An update about to write its backup.
  function Started(t: Terms): State {
    State(Disk(t.prev, None, Job(Downloading, 0, 0), false), WriteBackup, false)
  }

  // A run that ends with the previous binary under a journal that says complete: everything
  // goes well, except that saving the completion reports an error after the file was replaced;
  // the timer rolls back, and the process dies between the replacement and the save.
  const LATE_RUN: seq<Event> :=
    [Advance(Ok), Advance(Ok), Advance(Ok), Advance(Ok), Advance(Ok), Advance(Ok), Advance(Ok),
     CompleteBoot(FailNew), Timer, Advance(Ok), Advance(Dies)]

  lemma LateRollbackHappens(t: Terms)
    ensures Inv(Started(t), t)
    ensures var s := Run(Started(t), t, LATE_RUN);
      s.proc == Down && s.disk.job.phase == Complete && s.disk.dest == t.prev
  {
    hide Step, Run;
    InstallRuns(t);
    BootRuns(t);
    TimerRuns(t);
  }

  // The installed candidate boots, and its completion is saved but reported as failed.
  lemma BootRuns(t: Terms)
    ensures var disk := Disk(t.cand, Some(t.prev), Job(Restarting, t.cand, t.prev), true);
      Run(State(disk, Boot, false), t, LATE_RUN[5..])
      == Run(State(disk.(job := disk.job.(phase := Complete)), Stalled, false), t, LATE_RUN[8..])
  {
    hide Run;
    var disk := Disk(t.cand, Some(t.prev), Job(Restarting, t.cand, t.prev), true);
    var b := State(disk, Boot, false);
    RunFrom(b, t, 5);
    var c := Step(b, t, Advance(Ok));
    assert c == State(disk, BootSaveVerifying, false);
    RunFrom(c, t, 6);
    var d := Step(c, t, Advance(Ok));
    assert d == State(disk.(job := disk.job.(phase := Verifying)), Verify, false);
    RunFrom(d, t, 7);
  }

  lemma TimerRuns(t: Terms)
    ensures var disk := Disk(t.cand, Some(t.prev), Job(Complete, t.cand, t.prev), true);
      Run(State(disk, Stalled, false), t, LATE_RUN[8..]) == State(disk.(dest := t.prev), Down, true)
  {
    hide Run;
    var disk := Disk(t.cand, Some(t.prev), Job(Complete, t.cand, t.prev), true);
    var f := State(disk, Stalled, false);
    RunFrom(f, t, 8);
    var g := Step(f, t, Timer);
    assert g == State(disk, RollbackReplace, true);
    RunFrom(g, t, 9);
    var h := Step(g, t, Advance(Ok));
    assert h == State(disk.(dest := t.prev), RollbackSave, true);
    RunFrom(h, t, 10);
    RunNothing(Step(h, t, Advance(Dies)), t);
  }

  lemma RunNothing(s: State, t: Terms)
    ensures Run(s, t, LATE_RUN[11..]) == s
  {
  }

  lemma RunFrom(s: State, t: Terms, i: nat)
    requires i < |LATE_RUN|
    ensures Run(s, t, LATE_RUN[i..]) == Run(Step(s, t, LATE_RUN[i]), t, LATE_RUN[i + 1..])
  {
    hide Step;
    assert LATE_RUN[i..][1..] == LATE_RUN[i + 1..];
  }

  // The five writes of an install, one by one.
  lemma InstallRuns(t: Terms)
    ensures Run(Started(t), t, LATE_RUN)
         == Run(State(Disk(t.cand, Some(t.prev), Job(Restarting, t.cand, t.prev), true), Boot, false), t, LATE_RUN[5..])
  {
    hide Run;
    var a := Started(t);
    assert LATE_RUN[0..] == LATE_RUN;
    RunFrom(a, t, 0);
    var b := Step(a, t, Advance(Ok));
    assert b == a.(disk := a.disk.(backup := Some(t.prev)), proc := SaveRestarting);
    RunFrom(b, t, 1);
    var c := Step(b, t, Advance(Ok));
    assert c == b.(disk := b.disk.(job := Job(Restarting, t.cand, t.prev)), proc := WritePending);
    RunFrom(c, t, 2);
    var d := Step(c, t, Advance(Ok));
    assert d == c.(disk := c.disk.(pending := true), proc := ReplaceDest);
    RunFrom(d, t, 3);
    var e := Step(d, t, Advance(Ok));
    assert e == d.(disk := d.disk.(dest := t.cand), proc := Exec);
    RunFrom(e, t, 4);
  }

  lemma LateOnlyAfterError(s: State, t: Terms, e: Event)
    requires Inv(s, t) && !s.late && Step(s, t, e).late
    ensures e == Timer && s.proc == Stalled && s.disk.job.phase == Complete
  {
  }

  // ---------------------------------------------------------------- recovery

  function Steps(s: State, t: Terms, n: nat): State
    decreases n
  {
    if n == 0 then s else Steps(Step(s, t, Advance(Ok)), t, n - 1)
  }

  // One boot from a stopped process in which no write fails, up to where it runs, waits to be
  // confirmed, or starts the restored binary.
  function CleanBoot(s: State, t: Terms): State {
    var phase := s.disk.job.phase;
    Steps(s, t, if phase == Verifying then 5 else if phase == Restarting && s.disk.dest != t.cand then 4 else 3)
  }

  predicate Settled(d: Disk) { d.job.phase != Restarting && d.job.phase != Verifying }

  lemma FiveSteps(s: State, t: Terms)
    ensures Steps(s, t, 3) == Step(Step(Step(s, t, Advance(Ok)), t, Advance(Ok)), t, Advance(Ok))
    ensures Steps(s, t, 4) == Step(Steps(s, t, 3), t, Advance(Ok))
    ensures Steps(s, t, 5) == Step(Steps(s, t, 4), t, Advance(Ok))
  {
    hide Step;
    var a := Step(s, t, Advance(Ok));
    var b := Step(a, t, Advance(Ok));
    var c := Step(b, t, Advance(Ok));
    var d := Step(c, t, Advance(Ok));
    var e := Step(d, t, Advance(Ok));
    assert Steps(e, t, 0) == e && Steps(d, t, 0) == d && Steps(c, t, 0) == c;
    assert Steps(d, t, 1) == e && Steps(c, t, 1) == d && Steps(b, t, 1) == c;
    assert Steps(c, t, 2) == e && Steps(b, t, 2) == d && Steps(a, t, 2) == c;
    assert Steps(b, t, 3) == e && Steps(a, t, 3) == d && Steps(a, t, 4) == e;
  }

  // A boot that finds the journal verifying rolls back, whether or not an earlier rollback
  // had replaced the binary already: an interrupted rollback is done over with the same result.
  lemma RollbackRepeats(s: State, t: Terms)
    requires Inv(s, t) && s.proc == Down && s.disk.job.phase == Verifying
    ensures var d := CleanBoot(s, t).disk; d.dest == t.prev && d.job.phase == RolledBack && !d.pending
    ensures CleanBoot(s, t).proc == Boot
  {
    FiveSteps(s, t);
    var b := Step(Step(s, t, Advance(Ok)), t, Advance(Ok));
    assert b == s.(proc := RollbackReplace);
    var c := Step(b, t, Advance(Ok));
    assert c == s.(proc := RollbackSave, disk := s.disk.(dest := t.prev));
    var d := Step(c, t, Advance(Ok));
    assert d.proc == RollbackClear && d.disk.dest == t.prev && d.disk.job.phase == RolledBack;
  }

  // A rollback stopped at any of its writes is still to be done, or done.
  lemma RollbackInterrupted(s: State, t: Terms, io: Io)
    requires Inv(s, t) && s.proc in {RollbackReplace, RollbackSave, RollbackClear}
    requires s.disk.job.phase in {Verifying, RolledBack}
    ensures Step(s, t, Advance(io)).disk.job.phase in {Verifying, RolledBack}
    ensures io != Ok ==> Step(s, t, Advance(io)).proc == Down
  {
  }

  lemma RestartBoots(s: State, t: Terms)
    requires Inv(s, t) && s.proc == Down && s.disk.job.phase == Restarting
    ensures s.disk.dest == t.cand ==> CleanBoot(s, t).proc == Verify && CleanBoot(s, t).disk.job.phase == Verifying
    ensures s.disk.dest != t.cand ==> CleanBoot(s, t).proc == Running && CleanBoot(s, t).disk.job.phase == Failed
  {
    FiveSteps(s, t);
    var b := Step(Step(s, t, Advance(Ok)), t, Advance(Ok));
    assert b == s.(proc := if s.disk.dest == t.cand then BootSaveVerifying else BootSaveFailed);
  }

  lemma OtherBoots(s: State, t: Terms)
    requires s.proc == Down && Settled(s.disk)
    ensures CleanBoot(s, t) == s.(proc := Running, disk := s.disk.(pending := false))
  {
    FiveSteps(s, t);
    var b := Step(Step(s, t, Advance(Ok)), t, Advance(Ok));
    assert b == s.(proc := BootClear);
  }

  lemma {:induction false} StepsKeep(s: State, t: Terms, n: nat)
    requires Inv(s, t)
    ensures Inv(Steps(s, t, n), t)
    decreases n
  {
    hide Inv, Step;
    if n > 0 {
      StepKeeps(s, t, Advance(Ok));
      StepsKeep(Step(s, t, Advance(Ok)), t, n - 1);
    }
  }

  // Wherever an update was interrupted, two boots without write errors leave it settled,
  // even if the first of them is stopped again before it could complete.
  lemma TwoBootsSettle(s: State, t: Terms)
    requires Inv(s, t) && s.proc == Down
    ensures var first := CleanBoot(s, t);
      && (Settled(first.disk) || first.proc == Verify)
      && Settled(CleanBoot(first.(proc := Down), t).disk)
      && (first.proc == Verify ==> CleanBoot(first.(proc := Down), t).disk.dest == t.prev)
  {
    hide Step, Steps, CleanBoot;
    var first := CleanBoot(s, t);
    assert Inv(first, t) by { BootKeeps(s, t); }
    var again := first.(proc := Down);
    assert Inv(again, t);
    if s.disk.job.phase == Verifying {
      RollbackRepeats(s, t);
      OtherBoots(again, t);
    } else if s.disk.job.phase == Restarting {
      RestartBoots(s, t);
      if s.disk.dest == t.cand { RollbackRepeats(again, t); } else { OtherBoots(again, t); }
    } else {
      OtherBoots(s, t);
      OtherBoots(again, t);
    }
  }

  lemma BootKeeps(s: State, t: Terms)
    requires Inv(s, t)
    ensures Inv(CleanBoot(s, t), t)
  {
    hide Inv;
    StepsKeep(s, t, 3);
    StepsKeep(s, t, 4);
    StepsKeep(s, t, 5);
  }

  // If no write fails, an update installs the candidate, boots it and is complete.
  lemma CleanUpdateCompletes(s: State, t: Terms)
    requires Inv(s, t) && s.proc == WriteBackup && !s.late
    ensures var installed := Steps(s, t, 5);
      && installed.proc == Boot && installed.disk.dest == t.cand && installed.disk.job.phase == Restarting
      && installed.disk.backup == Some(t.prev)
    ensures var waiting := Steps(Steps(s, t, 5), t, 2);
      && waiting.proc == Verify
      && var done := Steps(Step(waiting, t, CompleteBoot(Ok)), t, 1);
         done.proc == Running && done.disk == Disk(t.cand, Some(t.prev), Job(Complete, t.cand, t.prev), false)
  {
    FiveSteps(s, t);
    var a := Steps(s, t, 3);
    assert a.proc == ReplaceDest && a.disk == Disk(t.prev, Some(t.prev), Job(Restarting, t.cand, t.prev), true);
    var b := Steps(s, t, 5);
    assert b == State(Disk(t.cand, Some(t.prev), Job(Restarting, t.cand, t.prev), true), Boot, false);
    var w := Step(Step(b, t, Advance(Ok)), t, Advance(Ok));
    assert Steps(b, t, 2) == w by { TwoSteps(b, t); }
    assert w == State(Disk(t.cand, Some(t.prev), Job(Verifying, t.cand, t.prev), true), Verify, false);
    var c := Step(w, t, CompleteBoot(Ok));
    assert Steps(c, t, 1) == Step(c, t, Advance(Ok)) by { TwoSteps(c, t); }
  }

  lemma TwoSteps(s: State, t: Terms)
    ensures Steps(s, t, 1) == Step(s, t, Advance(Ok)) && Steps(s, t, 2) == Step(Step(s, t, Advance(Ok)), t, Advance(Ok))
  {
    hide Step;
    var a := Step(s, t, Advance(Ok));
    assert Steps(a, t, 0) == a && Steps(Step(a, t, Advance(Ok)), t, 0) == Step(a, t, Advance(Ok));
    assert Steps(a, t, 1) == Step(a, t, Advance(Ok));
  }

  // ---------------------------------------------------------------- as the daemon runs it

  lemma {:induction false} RunAppend(s: State, t: Terms, events: seq<Event>, e: Event)
    ensures Run(s, t, events + [e]) == Step(Run(s, t, events), t, e)
    decreases |events|
  {
    hide Step;
    if events == [] {
      assert [e][1..] == [] && events + [e] == [e];
      assert Run(Step(s, t, e), t, []) == Step(s, t, e);
    } else {
      assert (events + [e])[1..] == events[1..] + [e];
      RunAppend(Step(s, t, events[0]), t, events[1..], e);
    }
  }

  // The files, and where in the procedures the process is. Every write takes the outcome it
  // meets with as an argument and is one event of the run.
  class Updater {
    var disk: Disk
    const terms: Terms
    ghost var proc: Proc
    ghost var late: bool
    ghost var first: State
    ghost var events: seq<Event>

    ghost function Abs(): State
      reads this
    {
      State(disk, proc, late)
    }

    // The state is that of a run from the first one.
    ghost predicate Valid()
      reads this
    {
      Abs() == Run(first, terms, events)
    }

    ghost method Note(e: Event, was: State, next: Proc)
      requires was == Run(first, terms, events) && Step(was, terms, e) == State(disk, next, late)
      modifies this`proc, this`events
      ensures Valid() && proc == next
    {
      RunAppend(first, terms, events, e);
      events := events + [e];
      proc := next;
    }

    // Downloads are checked by now; the backup comes first, the binary last.
    method InstallAndActivate(backup: Io, save: Io, pending: Io, replace: Io, exec: Io, restore: Io)
      returns (activated: bool)
      requires Valid() && Inv(Abs(), terms) && proc == WriteBackup
      modifies this`disk, this`proc, this`events
      ensures Valid() && first == old(first)
      ensures activated ==>
          proc == Boot && disk.dest == terms.cand && disk.job.phase == Restarting && disk.backup == Some(terms.prev)
      ensures !activated ==> proc in {Down, SaveFailed, RemovePending}
    {
      ghost var w := Abs();
      var previous := disk.dest;
      disk := disk.(backup := Wrote(disk.backup, Some(previous), backup));
      Note(Advance(backup), w, if backup == Ok then SaveRestarting else if backup == Dies then Down else SaveFailed);
      if backup != Ok { return false; }
      w := Abs();
      disk := disk.(job := Wrote(disk.job, Job(Restarting, terms.cand, previous), save));
      Note(Advance(save), w, if save == Ok then WritePending else if save == Dies then Down else SaveFailed);
      if save != Ok { return false; }
      w := Abs();
      disk := disk.(pending := Wrote(disk.pending, true, pending));
      Note(Advance(pending), w, if pending == Ok then ReplaceDest else if pending == Dies then Down else SaveFailed);
      if pending != Ok { return false; }
      activated := Activate(previous, replace, exec, restore);
    }

    method Activate(previous: Bin, replace: Io, exec: Io, restore: Io) returns (activated: bool)
      requires Valid() && proc == ReplaceDest && previous == terms.prev
      modifies this`disk, this`proc, this`events
      ensures Valid() && first == old(first) && disk.job == old(disk).job && disk.backup == old(disk).backup
      ensures activated ==> proc == Boot && disk.dest == terms.cand
      ensures !activated ==> proc in {Down, RemovePending}
    {
      ghost var w := Abs();
      disk := disk.(dest := Wrote(disk.dest, terms.cand, replace));
      Note(Advance(replace), w, if replace == Ok then Exec else if replace == Dies then Down else RemovePending);
      if replace != Ok { return false; }
      w := Abs();
      Note(Advance(exec), w, if exec == Ok then Boot else if exec == Dies then Down else RestoreDest);
      if exec == Ok { return true; }
      if exec == Dies { return false; }
      w := Abs();
      disk := disk.(dest := Wrote(disk.dest, previous, restore));
      Note(Advance(restore), w, if restore == Dies then Down else RemovePending);
      activated := false;
    }

    method RestoreBackup(replace: Io, save: Io, clear: Io) returns (ok: bool)
      requires Valid() && proc == RollbackReplace
      modifies this`disk, this`proc, this`events
      ensures Valid() && first == old(first)
      ensures ok ==>
          proc == Boot && disk.dest == old(disk).job.backupHash && disk.job.phase == RolledBack && !disk.pending
      ensures !ok ==> proc == Down
      ensures old(disk).dest !in {old(disk).job.candidateHash, old(disk).job.backupHash} ==> !ok && disk == old(disk)
    {
      hide Run;
      ghost var w := Abs();
      var current := disk.dest;
      if current != disk.job.candidateHash && current != disk.job.backupHash {
        Note(Advance(replace), w, Down);
        return false;
      }
      if disk.backup == None || disk.backup.value != disk.job.backupHash {
        Note(Advance(replace), w, Down);
        return false;
      }
      disk := disk.(dest := Wrote(current, disk.backup.value, replace));
      Note(Advance(replace), w, if replace == Ok then RollbackSave else Down);
      if replace != Ok { return false; }
      ok := SaveRolledBack(save, clear);
    }

    method SaveRolledBack(save: Io, clear: Io) returns (ok: bool)
      requires Valid() && proc == RollbackSave
      modifies this`disk, this`proc, this`events
      ensures Valid() && first == old(first) && disk.dest == old(disk).dest
      ensures ok ==> proc == Boot && disk.job.phase == RolledBack && !disk.pending
      ensures !ok ==> proc == Down
    {
      hide Run;
      ghost var w := Abs();
      disk := disk.(job := Wrote(disk.job, disk.job.(phase := RolledBack), save));
      Note(Advance(save), w, if save == Ok then RollbackClear else Down);
      if save != Ok { return false; }
      w := Abs();
      disk := disk.(pending := Wrote(disk.pending, false, clear));
      Note(Advance(clear), w, if clear == Ok then Boot else Down);
      ok := clear == Ok;
    }

    method BeginBoot(save: Io, clear: Io, restore: (Io, Io, Io)) returns (waiting: bool)
      requires Valid() && proc == Boot
      modifies this`disk, this`proc, this`events
      ensures Valid() && first == old(first)
      ensures waiting ==> proc == Verify && disk.job.phase == Verifying && disk.dest == terms.cand
      ensures !waiting ==> proc in {Down, Running, Boot}
      ensures proc == Running ==> Settled(disk) && !disk.pending
    {
      hide Run;
      ghost var w := Abs();
      if disk.job.phase == Verifying {
        Note(Advance(Ok), w, RollbackReplace);
        var ok := RestoreBackup(restore.0, restore.1, restore.2);
        return false;
      }
      if disk.job.phase == Restarting && disk.dest == terms.cand {
        Note(Advance(Ok), w, BootSaveVerifying);
        w := Abs();
        disk := disk.(job := Wrote(disk.job, disk.job.(phase := Verifying), save));
        Note(Advance(save), w, if save == Ok then Verify else Down);
        return save == Ok;
      }
      BootSettled(save, clear);
      waiting := false;
    }

    // Nothing was started, or what was started is not running.
    method BootSettled(save: Io, clear: Io)
      requires Valid() && proc == Boot && disk.job.phase != Verifying
      requires disk.job.phase == Restarting ==> disk.dest != terms.cand
      modifies this`disk, this`proc, this`events
      ensures Valid() && first == old(first) && proc in {Down, Running}
      ensures proc == Running ==> Settled(disk) && !disk.pending
    {
      hide Run;
      ghost var w := Abs();
      if disk.job.phase == Restarting {
        Note(Advance(Ok), w, BootSaveFailed);
        w := Abs();
        disk := disk.(job := Wrote(disk.job, disk.job.(phase := Failed), save));
        Note(Advance(save), w, if save == Ok then BootClear else Down);
        if save != Ok { return; }
      } else {
        Note(Advance(Ok), w, BootClear);
      }
      w := Abs();
      disk := disk.(pending := Wrote(disk.pending, false, clear));
      Note(Advance(clear), w, if clear == Ok then Running else Down);
    }
  }

  // ---------------------------------------------------------------- versions

  // A version's numbers, split at dots and dashes.
  function Parts(s: string): (p: seq<string>)
    ensures |p| >= 1
  {
    if s == [] then [[]]
    else
      var rest := Parts(s[1..]);
      if s[0] == '.' || s[0] == '-' then [[]] + rest else [[s[0]] + rest[0]] + rest[1..]
  }

  function Trim(s: string): string { if s != [] && s[0] == 'v' then s[1..] else s }

  // Two to four numbers, with or without a leading v.
  predicate Release(s: string) {
    var p := Parts(Trim(s));
    2 <= |p| <= 4 && forall i :: 0 <= i < |p| ==> p[i] != [] && Value(p[i]).Some?
  }

  // A number that needs more than 53 bits does not parse.
  function Number(part: string): Option<nat> {
    match Value(part)
    case None => None
    case Some(v) => if v < 0x20_0000_0000_0000 then Some(v) else None
  }

  function Numbers(s: string): seq<Option<nat>> {
    var p := Parts(Trim(s));
    seq(|p|, i requires 0 <= i < |p| => Number(p[i]))
  }

  // Numbers are compared one by one, and only with a version of as many; one that does not
  // parse ends the comparison.
  ghost predicate Newer(a: seq<Option<nat>>, b: seq<Option<nat>>) {
    |a| == |b| && exists i: nat :: FirstDiffers(a, b, i) && a[i].value > b[i].value
  }

  ghost predicate FirstDiffers(a: seq<Option<nat>>, b: seq<Option<nat>>, i: nat) {
    && i < |a| && i < |b| && a[i].Some? && b[i].Some? && a[i] != b[i]
    && forall j :: 0 <= j < i ==> a[j] == b[j] && a[j].Some?
  }

  method NewerVersion(a: string, b: string) returns (r: bool)
    ensures r == (Release(a) && Release(b) && Newer(Numbers(a), Numbers(b)))
  {
    if !Release(a) || !Release(b) { return false; }
    var aa, bb := Parts(Trim(a)), Parts(Trim(b));
    if |aa| != |bb| { return false; }
    ghost var m, n := Numbers(a), Numbers(b);
    for i := 0 to |aa|
      invariant forall j :: 0 <= j < i ==> m[j] == n[j] && m[j].Some?
    {
      hide Parts, Number;
      var x, y := Number(aa[i]), Number(bb[i]);
      assert m[i] == x && n[i] == y;
      if x == None || y == None { return false; }
      if x != y {
        assert FirstDiffers(m, n, i);
        return x.value > y.value;
      }
    }
    return false;
  }

  lemma NewerIsStrict(a: seq<Option<nat>>, b: seq<Option<nat>>, c: seq<Option<nat>>)
    ensures !Newer(a, a) && !(Newer(a, b) && Newer(b, a))
    ensures Newer(a, b) && Newer(b, c) ==> Newer(a, c)
  {
    assert forall i: nat, j: nat :: FirstDiffers(a, b, i) && FirstDiffers(b, a, j) ==> i == j;
    if Newer(a, b) && Newer(b, c) {
      var i: nat :| FirstDiffers(a, b, i) && a[i].value > b[i].value;
      var j: nat :| FirstDiffers(b, c, j) && b[j].value > c[j].value;
      assert FirstDiffers(a, c, if i < j then i else j);
    }
  }
}
