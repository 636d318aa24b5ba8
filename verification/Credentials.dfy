/**
  The daemon's relay credential: enrolment and token rotation, each with its journal file, against
  a server that may answer late, twice or not at all.

  Daemon ids and tokens are numbers; a new one is one that was never made before. One process at
  a time works on the files, with the same origin throughout.
 */
module Credentials {
  import opened Basics

  type Id = nat
  type Token = nat

  datatype Relay = Relay(id: Id, token: Token)
  datatype Rekey = Rekey(id: Id, prev: Token, next: Token)

  // daemon.json, relay.json, enroll-pending.json and rekey-pending.json.
  datatype Disk = Disk(id: Option<Id>, relay: Option<Relay>, enroll: Option<Relay>, rekey: Option<Rekey>)

  datatype Message = Enrol(e: Relay) | Rotate(k: Rekey)

  // What the process is about to do; every name but Idle is one write or one request.
  datatype Proc =
    | Idle
    | Reconcile
    | EnrollSave(e: Relay) | EnrollPost(e: Relay) | EnrollIdentity(e: Relay)
    | EnrollRelay(e: Relay) | EnrollClear(e: Relay)
    | RekeySave(k: Rekey) | RekeyPost(k: Rekey) | RekeyRelay(k: Rekey) | RekeyClear(k: Rekey)

  // server: the token of each enrolled daemon, or None once it was kicked. sent: every request
  // ever made. owner: the daemon each token was made for.
  datatype State = State(
    disk: Disk, server: map<Id, Option<Token>>, sent: set<Message>, proc: Proc, booting: bool, up: bool, owner: seq<Id>)

  const FRESH := State(Disk(None, None, None, None), map[], {}, Idle, false, false, [])

  // ---------------------------------------------------------------- the server

  // Asking again for what is already so is answered with yes.
  function Serve(server: map<Id, Option<Token>>, m: Message): (map<Id, Option<Token>>, bool) {
    match m
    case Enrol(e) =>
      if e.id !in server then (server[e.id := Some(e.token)], true) else (server, server[e.id] == Some(e.token))
    case Rotate(k) =>
      if k.id !in server || server[k.id] == None then (server, false)
      else if server[k.id] == Some(k.next) then (server, true)
      else if server[k.id] == Some(k.prev) then (server[k.id := Some(k.next)], true)
      else (server, false)
  }

  // ---------------------------------------------------------------- the daemon and its commands

  function Fail(s: State): State { s.(proc := Idle, booting := false) }

  function Done(s: State): State { s.(proc := Idle, booting := false, up := s.up || s.booting) }

  function StartEnroll(s: State): State {
    match s.disk.enroll
    case Some(e) => s.(proc := EnrollPost(e))
    case None =>
      var n := |s.owner|;
      s.(proc := EnrollSave(Relay(n, n)), owner := s.owner + [n])
  }

  function FinishRekey(s: State, k: Rekey): State
    requires s.disk.relay.Some?
  {
    if s.disk.id != Some(k.id) then Fail(s)
    else if s.disk.relay.value.token == k.next then s.(proc := RekeyClear(k))
    else if s.disk.relay.value.token != k.prev then Fail(s)
    else s.(proc := RekeyPost(k))
  }

  function StartRekey(s: State): State {
    if s.disk.relay == None || s.disk.id == None then Fail(s)
    else
      match s.disk.rekey
      case Some(k) => FinishRekey(s, k)
      case None =>
        var k := Rekey(s.disk.id.value, s.disk.relay.value.token, |s.owner|);
        s.(proc := RekeySave(k), owner := s.owner + [k.id])
  }

  // What a start does once the enrolment journal was looked at.
  function Plan(s: State): State {
    if s.disk.relay == None || s.disk.enroll.Some? then StartEnroll(s)
    else
      match s.disk.rekey
      case Some(k) => FinishRekey(s, k)
      case None => Done(s)
  }

  predicate Acknowledged(d: Disk) {
    d.enroll.Some? && d.relay.Some? && d.relay.value.token == d.enroll.value.token
  }

  function StartBoot(s: State): State {
    var t := s.(booting := true);
    if !Acknowledged(s.disk) then Plan(t)
    else if s.disk.relay.value.id != s.disk.enroll.value.id || s.disk.id != Some(s.disk.enroll.value.id) then Fail(t)
    else t.(proc := Reconcile)
  }

  // A failed write leaves the old file or the new one.
  datatype Io = Ok | FailOld | FailNew

  function Written(s: State): Disk {
    match s.proc
    case Reconcile => s.disk.(enroll := None)
    case EnrollSave(e) => s.disk.(enroll := Some(e))
    case EnrollIdentity(e) => s.disk.(id := Some(e.id))
    case EnrollRelay(e) => s.disk.(relay := Some(e))
    case EnrollClear(e) => s.disk.(enroll := None)
    case RekeySave(k) => s.disk.(rekey := Some(k))
    case RekeyRelay(k) =>
      if s.disk.relay.Some? then s.disk.(relay := Some(s.disk.relay.value.(token := k.next))) else s.disk
    case RekeyClear(k) => s.disk.(rekey := None)
    case _ => s.disk
  }

  function AfterWrite(s: State): State {
    match s.proc
    case Reconcile => Plan(s)
    case EnrollSave(e) => s.(proc := EnrollPost(e))
    case EnrollIdentity(e) => s.(proc := EnrollRelay(e))
    case EnrollRelay(e) => s.(proc := EnrollClear(e))
    case EnrollClear(e) => Done(s)
    case RekeySave(k) => s.(proc := RekeyPost(k))
    case RekeyRelay(k) => s.(proc := RekeyClear(k))
    case RekeyClear(k) => Done(s)
    case _ => s
  }

  predicate Writes(p: Proc) { !p.Idle? && !p.EnrollPost? && !p.RekeyPost? }

  function Write(s: State, io: Io): State {
    if !Writes(s.proc) then s
    else if io == Ok then AfterWrite(s.(disk := Written(s)))
    else Fail(s.(disk := if io == FailNew then Written(s) else s.disk))
  }

  function Post(s: State, m: Message, next: Proc, answered: bool): State {
    var t := s.(sent := s.sent + {m});
    if !answered then Fail(t)
    else
      var (server, ok) := Serve(s.server, m);
      if ok then t.(server := server, proc := next) else Fail(t.(server := server))
  }

  datatype Event =
    | EvBoot | EvEnroll(force: bool) | EvRekey
    | EvWrite(io: Io) | EvPost(answered: bool)
    | EvDeliver(m: Message) | EvKick(id: Id) | EvCrash

  function Step(s: State, e: Event): State {
    match e
    case EvBoot => if s.proc == Idle && !s.up then StartBoot(s) else s
    case EvEnroll(force) =>
      if s.proc == Idle && !s.up && (s.disk.relay == None || force) then StartEnroll(s) else s
    case EvRekey => if s.proc == Idle then StartRekey(s) else s
    case EvWrite(io) => Write(s, io)
    case EvPost(answered) =>
      if s.proc.EnrollPost? then Post(s, Enrol(s.proc.e), EnrollIdentity(s.proc.e), answered)
      else if s.proc.RekeyPost? then Post(s, Rotate(s.proc.k), RekeyRelay(s.proc.k), answered)
      else s
    case EvDeliver(m) => if m in s.sent then s.(server := Serve(s.server, m).0) else s
    case EvKick(id) => if id in s.server then s.(server := s.server[id := None]) else s
    case EvCrash => s.(proc := Idle, booting := false, up := false)
  }

  function Run(s: State, events: seq<Event>): State
    decreases |events|
  {
    if events == [] then s else Run(Step(s, events[0]), events[1..])
  }

  // ---------------------------------------------------------------- the invariant

  predicate Owned(s: State, id: Id, token: Token) { token < |s.owner| && s.owner[token] == id }

  // A rotation is made with a token newer than its daemon and the one it replaces.
  predicate Made(s: State, k: Rekey) { k.id < k.next && k.prev < k.next && Owned(s, k.id, k.next) }

  // An enrolment makes daemon and token at once.
  predicate Minted(s: State, e: Relay) { e.id == e.token && Owned(s, e.id, e.token) }

  // The server's token of a daemon is this one, or the journaled next one.
  predicate Knows(s: State, r: Relay) {
    && r.id in s.server
    && (s.server[r.id] == None || s.server[r.id] == Some(r.token)
        || (s.disk.rekey.Some? && s.disk.rekey.value.id == r.id && s.disk.rekey.value.prev == r.token
            && s.server[r.id] == Some(s.disk.rekey.value.next)))
  }

  predicate ServerOk(s: State) {
    forall d :: d in s.server && s.server[d].Some? ==> Owned(s, d, s.server[d].value)
  }

  // The server is at this token or past it, and so will never go to it again.
  predicate Past(s: State, id: Id, token: Token) {
    id in s.server && (s.server[id] == None || s.server[id].value >= token)
  }

  // A request still on its way is the journaled one, or has had its effect.
  predicate SentOk(s: State, m: Message) {
    match m
    case Enrol(e) => Minted(s, e) && (e.id in s.server || s.disk.enroll == Some(e))
    case Rotate(k) => Made(s, k) && (s.disk.rekey == Some(k) || Past(s, k.id, k.next))
  }

  // A rotation takes effect only at the daemon whose token it replaces.
  predicate Rotated(s: State, k: Rekey) {
    k.id in s.server && s.server[k.id] == Some(k.next) ==> Owned(s, k.id, k.prev)
  }

  predicate DiskOk(s: State) {
    && (s.disk.relay.Some? ==>
          Owned(s, s.disk.relay.value.id, s.disk.relay.value.token) && Knows(s, s.disk.relay.value))
    && (s.disk.enroll.Some? ==> Minted(s, s.disk.enroll.value))
    && (s.disk.rekey.Some? ==> Made(s, s.disk.rekey.value) && Rotated(s, s.disk.rekey.value))
    && (s.disk.id.Some? ==> s.disk.id.value < |s.owner|)
  }

  // The enrolment journal is of the daemon in relay.json, whose token was rotated since.
  predicate Stale(d: Disk) {
    && d.enroll.Some? && d.relay.Some?
    && d.relay.value.id == d.enroll.value.id && d.relay.value.token != d.enroll.value.token
  }

  // What the four files have to do with each other.
  predicate Linked(s: State) {
    && (s.disk.relay.Some? && (s.disk.enroll == None || Acknowledged(s.disk)) ==>
          s.disk.id == Some(s.disk.relay.value.id))
    && (s.disk.enroll.Some? ==> Moved(s, s.disk.enroll.value))
  }

  // An enrolled daemon's token was rotated only after relay.json had it.
  predicate Moved(s: State, e: Relay) {
    || (s.disk.relay.Some? && s.disk.relay.value.id == e.id)
    || ((e.id in s.server ==> s.server[e.id] in {None, Some(e.token)})
        && (s.disk.rekey.Some? ==> s.disk.rekey.value.prev != e.token))
  }

  predicate ProcOk(s: State) {
    match s.proc
    case Idle => true
    case Reconcile => Acknowledged(s.disk) && s.disk.enroll.value.id in s.server
    case EnrollSave(e) =>
      && s.disk.enroll == None && Minted(s, e) && e.id !in s.server
      && (s.disk.relay.Some? ==> s.disk.relay.value.token != e.token)
      && (s.disk.rekey.Some? ==> s.disk.rekey.value.prev != e.token)
    case EnrollPost(e) => s.disk.enroll == Some(e)
    case EnrollIdentity(e) => s.disk.enroll == Some(e) && Knows(s, e) && !Stale(s.disk)
    case EnrollRelay(e) => s.disk.enroll == Some(e) && Knows(s, e) && !Stale(s.disk) && s.disk.id == Some(e.id)
    case EnrollClear(e) => s.disk.enroll == Some(e) && s.disk.relay == Some(e) && s.disk.id == Some(e.id)
    case RekeySave(k) =>
      && s.disk.rekey == None && Made(s, k) && !(k.id in s.server && s.server[k.id] == Some(k.next))
      && s.disk.relay.Some? && s.disk.relay.value.token == k.prev
    case RekeyPost(k) => s.disk.rekey == Some(k) && s.disk.relay.Some? && s.disk.relay.value.token == k.prev
    case RekeyRelay(k) =>
      && s.disk.rekey == Some(k) && s.disk.relay.Some? && s.disk.relay.value == Relay(k.id, k.prev)
      && Past(s, k.id, k.next)
    case RekeyClear(k) => s.disk.rekey == Some(k) && s.disk.relay == Some(Relay(k.id, k.next))
  }

  ghost predicate Inv(s: State) {
    && ServerOk(s) && DiskOk(s) && Linked(s) && ProcOk(s)
    && (forall m :: m in s.sent ==> SentOk(s, m))
    && (forall d :: d in s.server ==> d < |s.owner|)
  }

  // ---------------------------------------------------------------- every step keeps it

  ghost function Served(s: State, m: Message): State { s.(server := Serve(s.server, m).0) }

  lemma ServeDisk(s: State, m: Message)
    requires ServerOk(s) && DiskOk(s) && Linked(s) && SentOk(s, m)
    ensures ServerOk(Served(s, m)) && DiskOk(Served(s, m)) && Linked(Served(s, m))
  {
  }

  lemma ServeProc(s: State, m: Message)
    requires ServerOk(s) && DiskOk(s) && ProcOk(s) && SentOk(s, m)
    ensures ProcOk(Served(s, m))
  {
  }

  lemma ServeSent(s: State, m: Message, x: Message)
    requires ServerOk(s) && DiskOk(s) && SentOk(s, m) && SentOk(s, x)
    ensures SentOk(Served(s, m), x)
  {
  }

  lemma ServeKeeps(s: State, m: Message)
    requires Inv(s) && SentOk(s, m)
    ensures Inv(Served(s, m))
  {
    ServeDisk(s, m);
    ServeProc(s, m);
    hide DiskOk, Linked, ProcOk, SentOk;
    forall x | x in s.sent ensures SentOk(Served(s, m), x) {
      ServeSent(s, m, x);
    }
    ServeIds(s, m);
  }

  lemma ServeIds(s: State, m: Message)
    requires SentOk(s, m) && forall d :: d in s.server ==> d < |s.owner|
    ensures forall d :: d in Served(s, m).server ==> d < |s.owner|
  {
  }

  ghost function Kicked(s: State, id: Id): State { s.(server := s.server[id := None]) }

  lemma KickDisk(s: State, id: Id)
    requires ServerOk(s) && DiskOk(s) && Linked(s) && ProcOk(s) && id in s.server
    ensures ServerOk(Kicked(s, id)) && DiskOk(Kicked(s, id)) && Linked(Kicked(s, id)) && ProcOk(Kicked(s, id))
  {
  }

  lemma KickKeeps(s: State, id: Id)
    requires Inv(s) && id in s.server
    ensures Inv(Kicked(s, id))
  {
    KickDisk(s, id);
    hide DiskOk, Linked, ProcOk;
    forall x | x in s.sent ensures SentOk(Kicked(s, id), x) {
      assert SentOk(s, x);
    }
  }

  // Only the process changes.
  lemma ProcKeeps(s: State, u: State)
    requires Inv(s) && u == s.(proc := u.proc, booting := u.booting, up := u.up) && ProcOk(u)
    ensures Inv(u)
  {
    forall x | x in s.sent ensures SentOk(u, x) {
      assert SentOk(s, x);
    }
  }

  // A new token, for a new daemon or a known one.
  lemma MintKeeps(s: State, id: Id, p: Proc)
    requires Inv(s) && id <= |s.owner|
    requires ProcOk(s.(owner := s.owner + [id], proc := p))
    ensures Inv(s.(owner := s.owner + [id], proc := p))
  {
    var u := s.(owner := s.owner + [id], proc := p);
    forall x | x in s.sent ensures SentOk(u, x) {
      assert SentOk(s, x);
    }
  }

  lemma StartEnrollKeeps(s: State)
    requires Inv(s) && s.proc == Idle
    ensures Inv(StartEnroll(s))
  {
    match s.disk.enroll
    case Some(e) => ProcKeeps(s, StartEnroll(s));
    case None => MintKeeps(s, |s.owner|, StartEnroll(s).proc);
  }

  lemma FinishRekeyKeeps(s: State, k: Rekey)
    requires Inv(s) && s.disk.rekey == Some(k) && s.disk.relay.Some?
    ensures Inv(FinishRekey(s, k))
  {
    ProcKeeps(s, FinishRekey(s, k));
  }

  lemma StartRekeyKeeps(s: State)
    requires Inv(s) && s.proc == Idle
    ensures Inv(StartRekey(s))
  {
    if s.disk.relay == None || s.disk.id == None {
      ProcKeeps(s, Fail(s));
    } else {
      match s.disk.rekey
      case Some(k) => FinishRekeyKeeps(s, k);
      case None => MintKeeps(s, s.disk.id.value, StartRekey(s).proc);
    }
  }

  lemma PlanKeeps(s: State)
    requires Inv(s) && s.proc == Idle
    ensures Inv(Plan(s))
  {
    if s.disk.relay == None || s.disk.enroll.Some? {
      StartEnrollKeeps(s);
    } else {
      match s.disk.rekey
      case Some(k) => FinishRekeyKeeps(s, k);
      case None => ProcKeeps(s, Done(s));
    }
  }

  lemma StartBootKeeps(s: State)
    requires Inv(s) && s.proc == Idle
    ensures Inv(StartBoot(s))
  {
    var t := s.(booting := true);
    ProcKeeps(s, t);
    if Acknowledged(s.disk) { ProcKeeps(t, StartBoot(s)); } else { PlanKeeps(t); }
  }

  // What was going on does not matter to the plan.
  lemma PlanIgnores(s: State, p: Proc)
    ensures Plan(s.(proc := p)) == Plan(s)
  {
  }

  ghost function Put(s: State): State { s.(disk := Written(s), proc := Idle) }

  lemma PutSent(s: State, m: Message)
    requires DiskOk(s) && Linked(s) && ProcOk(s) && Writes(s.proc) && SentOk(s, m)
    ensures SentOk(Put(s), m)
  {
  }

  lemma PutDisk(s: State)
    requires ServerOk(s) && DiskOk(s) && Linked(s) && ProcOk(s) && Writes(s.proc)
    ensures DiskOk(Put(s))
  {
  }

  lemma PutLinked(s: State)
    requires ServerOk(s) && DiskOk(s) && Linked(s) && ProcOk(s) && Writes(s.proc)
    ensures Linked(Put(s))
  {
  }

  // A write, whatever is then made of it.
  lemma PutKeeps(s: State)
    requires Inv(s) && Writes(s.proc)
    ensures Inv(Put(s))
  {
    hide DiskOk, Linked, ProcOk, SentOk, Written;
    PutDisk(s);
    PutLinked(s);
    forall m | m in s.sent ensures SentOk(Put(s), m) {
      PutSent(s, m);
    }
    assert ProcOk(Put(s)) by { IdleIsOk(Put(s)); }
  }

  lemma IdleIsOk(s: State)
    requires s.proc == Idle
    ensures ProcOk(s)
  {
  }

  lemma NextIsOk(s: State)
    requires ServerOk(s) && DiskOk(s) && Linked(s) && ProcOk(s) && Writes(s.proc) && s.proc != Reconcile
    ensures ProcOk(AfterWrite(s.(disk := Written(s))))
  {
  }

  lemma WriteKeeps(s: State, io: Io)
    requires Inv(s)
    ensures Inv(Write(s, io))
  {
    if Writes(s.proc) {
      PutKeeps(s);
      if io == Ok {
        if s.proc == Reconcile {
          PlanIgnores(Put(s), Reconcile);
          PlanKeeps(Put(s));
        } else {
          NextIsOk(s);
          hide Inv, ProcOk, Written;
          ProcKeeps(Put(s), Write(s, io));
        }
      } else {
        hide Inv, ProcOk, Written;
        IdleIsOk(Write(s, io));
        ProcKeeps(if io == FailNew then Put(s) else s, Write(s, io));
      }
    }
  }

  lemma SendKeeps(s: State, m: Message)
    requires Inv(s) && SentOk(s, m)
    ensures Inv(s.(sent := s.sent + {m}))
  {
    var t := s.(sent := s.sent + {m});
    forall x | x in t.sent ensures SentOk(t, x) {
      assert SentOk(s, x);
    }
  }

  lemma AnsweredIsOk(s: State, answered: bool)
    requires ServerOk(s) && DiskOk(s) && Linked(s) && ProcOk(s) && (s.proc.EnrollPost? || s.proc.RekeyPost?)
    ensures ProcOk(Step(s, EvPost(answered)))
  {
  }

  lemma PostKeeps(s: State, answered: bool)
    requires Inv(s)
    ensures Inv(Step(s, EvPost(answered)))
  {
    if s.proc.EnrollPost? || s.proc.RekeyPost? {
      var m := if s.proc.EnrollPost? then Enrol(s.proc.e) else Rotate(s.proc.k);
      var t := s.(sent := s.sent + {m});
      assert SentOk(s, m);
      SendKeeps(s, m);
      AnsweredIsOk(s, answered);
      hide Inv, ProcOk, SentOk;
      if answered {
        SentStays(s, m);
        ServeKeeps(t, m);
        ProcKeeps(t.(server := Serve(s.server, m).0), Step(s, EvPost(answered)));
      } else {
        ProcKeeps(t, Step(s, EvPost(answered)));
      }
    }
  }

  lemma SentStays(s: State, m: Message)
    requires SentOk(s, m)
    ensures SentOk(s.(sent := s.sent + {m}), m)
  {
  }

  lemma StepKeeps(s: State, e: Event)
    requires Inv(s)
    ensures Inv(Step(s, e))
  {
    match e
    case EvBoot => if s.proc == Idle { StartBootKeeps(s); }
    case EvEnroll(_) => if s.proc == Idle { StartEnrollKeeps(s); }
    case EvRekey => if s.proc == Idle { StartRekeyKeeps(s); }
    case EvWrite(io) => WriteKeeps(s, io);
    case EvPost(answered) => PostKeeps(s, answered);
    case EvDeliver(m) => if m in s.sent { ServeKeeps(s, m); }
    case EvKick(id) => if id in s.server { KickKeeps(s, id); }
    case EvCrash => ProcKeeps(s, Step(s, e));
  }

  lemma {:induction false} RunKeeps(s: State, events: seq<Event>)
    requires Inv(s)
    ensures Inv(Run(s, events))
    decreases |events|
  {
    hide Inv, Step;
    if events != [] {
      StepKeeps(s, events[0]);
      RunKeeps(Step(s, events[0]), events[1..]);
    }
  }

  // Over every run, with crashes, failed writes and requests that arrive late, twice or never:
  // the server's token of the daemon in relay.json is the one there, or the next one of the
  // rotation journal, unless the daemon was kicked; and without a journal it is the one there.
  lemma TokenIsKnown(events: seq<Event>)
    ensures var s := Run(FRESH, events);
      s.disk.relay.Some? ==>
        var r := s.disk.relay.value;
        && r.id in s.server
        && (s.server[r.id] in {None, Some(r.token)}
            || (s.disk.rekey.Some? && s.disk.rekey.value == Rekey(r.id, r.token, s.disk.rekey.value.next)
                && s.server[r.id] == Some(s.disk.rekey.value.next)))
  {
    RunKeeps(FRESH, events);
  }

  // ---------------------------------------------------------------- starting again

  // The next write succeeds, the next request is answered.
  function Go(s: State): State { Step(s, if Writes(s.proc) then EvWrite(Ok) else EvPost(true)) }

  function Going(s: State, n: nat): State
    decreases n
  {
    if n == 0 then s else Going(Go(s), n - 1)
  }

  function CleanBoot(s: State): State { Going(Step(s, EvBoot), 5) }

  // The rotation journal is of another daemon, or of another token of this one.
  predicate Foreign(d: Disk) {
    && d.rekey.Some? && d.relay.Some?
    && (d.id != Some(d.rekey.value.id) || d.relay.value.token !in {d.rekey.value.prev, d.rekey.value.next})
  }

  // No start gets past these files.
  predicate Stuck(d: Disk) {
    if d.enroll.Some? && !Acknowledged(d) then Stale(d) else Foreign(d)
  }

  // The server has kicked the daemon the start has to ask for.
  predicate Refusing(s: State) {
    var d := s.disk;
    if d.enroll.Some? && !Acknowledged(d) then d.enroll.value.id in s.server && s.server[d.enroll.value.id] == None
    else
      && d.rekey.Some? && d.relay.Some? && d.relay.value.token == d.rekey.value.prev
      && d.rekey.value.id in s.server && s.server[d.rekey.value.id] == None
  }

  // relay.json has the server's token.
  predicate Current(s: State) {
    && s.disk.relay.Some? && s.disk.enroll == None && s.disk.relay.value.id in s.server
    && s.server[s.disk.relay.value.id] in {None, Some(s.disk.relay.value.token)}
  }

  lemma GoingOn(s: State, n: nat)
    requires n > 0
    ensures Going(s, n) == Going(Go(s), n - 1)
  {
  }

  lemma {:induction false} GoingIdle(s: State, n: nat)
    requires s.proc == Idle
    ensures Going(s, n) == s
    decreases n
  {
    if n > 0 { GoingIdle(s, n - 1); }
  }

  lemma EnrollGoes(s: State, e: Relay, n: nat)
    requires Inv(s) && s.proc == EnrollPost(e) && s.booting && n >= 4
    ensures var u, yes := Going(s, n), e.id !in s.server || s.server[e.id] == Some(e.token);
      u.proc == Idle && (u.up <==> s.up || yes) && (yes ==> Current(u))
  {
    hide Going, Inv;
    GoingOn(s, n);
    var a := Go(s);
    if e.id !in s.server || s.server[e.id] == Some(e.token) {
      assert a.proc == EnrollIdentity(e) && a.server == Serve(s.server, Enrol(e)).0;
      GoingOn(a, n - 1);
      var b := Go(a);
      assert b == a.(disk := a.disk.(id := Some(e.id)), proc := EnrollRelay(e));
      GoingOn(b, n - 2);
      var c := Go(b);
      assert c == b.(disk := b.disk.(relay := Some(e)), proc := EnrollClear(e));
      GoingOn(c, n - 3);
      assert Go(c) == Done(c.(disk := c.disk.(enroll := None)));
      GoingIdle(Go(c), n - 4);
    } else {
      GoingIdle(a, n - 1);
    }
  }

  // A rotation the server accepts is of the daemon and token in relay.json.
  lemma AcceptedIsOurs(s: State, k: Rekey)
    requires Inv(s) && s.proc == RekeyPost(k) && k.id in s.server && s.server[k.id] in {Some(k.prev), Some(k.next)}
    ensures s.disk.rekey == Some(k) && s.disk.relay == Some(Relay(k.id, k.prev)) && k.prev < k.next
  {
  }

  lemma RekeyGoes(s: State, k: Rekey, n: nat)
    requires Inv(s) && s.proc == RekeyPost(k) && s.booting && s.disk.enroll == None && n >= 3
    ensures var u, yes := Going(s, n), k.id in s.server && s.server[k.id] in {Some(k.prev), Some(k.next)};
      u.proc == Idle && (u.up <==> s.up || yes) && (yes ==> Current(u))
  {
    hide Going, Inv;
    GoingOn(s, n);
    var a := Go(s);
    if k.id in s.server && s.server[k.id] in {Some(k.prev), Some(k.next)} {
      AcceptedIsOurs(s, k);
      assert a.proc == RekeyRelay(k) && a.disk == s.disk && a.server[k.id] == Some(k.next);
      GoingOn(a, n - 1);
      var b := Go(a);
      assert b == a.(disk := a.disk.(relay := Some(Relay(k.id, k.next))), proc := RekeyClear(k));
      GoingOn(b, n - 2);
      assert Go(b) == Done(b.(disk := b.disk.(rekey := None)));
      GoingIdle(Go(b), n - 3);
    } else {
      GoingIdle(a, n - 1);
    }
  }

  lemma ClearGoes(s: State, k: Rekey, n: nat)
    requires Inv(s) && s.proc == RekeyClear(k) && s.booting && s.disk.enroll == None && n >= 1
    ensures var u := Going(s, n); u.proc == Idle && u.up && Current(u)
  {
    GoingOn(s, n);
    assert Go(s) == Done(s.(disk := s.disk.(rekey := None)));
    GoingIdle(Go(s), n - 1);
  }

  lemma ResumedExactly(s: State, e: Relay)
    requires Inv(s) && s.disk.enroll == Some(e) && !Acknowledged(s.disk)
    ensures e.id !in s.server || s.server[e.id] == Some(e.token) <==> !Stale(s.disk) && !Refusing(s)
  {
  }

  lemma RotationExactly(s: State, k: Rekey)
    requires Inv(s) && s.disk.enroll == None && s.disk.rekey == Some(k) && s.disk.relay.Some? && !Foreign(s.disk)
    ensures s.disk.relay.value.id == k.id
    ensures s.disk.relay.value.token == k.prev ==>
              (k.id in s.server && s.server[k.id] in {Some(k.prev), Some(k.next)} <==> !Refusing(s))
  {
  }

  lemma NewGoes(s: State, n: nat)
    requires Inv(s) && s.proc == Idle && s.booting && !s.up && s.disk.relay == None && s.disk.enroll == None && n >= 5
    ensures var u := Going(Plan(s), n); u.proc == Idle && u.up && Current(u)
  {
    PlanKeeps(s);
    var t := Plan(s);
    GoingOn(t, n);
    WriteKeeps(t, Ok);
    hide Going, Inv;
    EnrollGoes(Go(t), t.proc.e, n - 1);
  }

  // What a start comes to once the enrolment journal was looked at: an enrolment to resume, or
  // a rotation, or neither.
  lemma PlanGoes(s: State, n: nat)
    requires Inv(s) && s.proc == Idle && s.booting && !s.up && !Acknowledged(s.disk) && n >= 4
    requires s.disk.relay == None && s.disk.enroll == None ==> n >= 5
    ensures var u := Going(Plan(s), n);
      u.proc == Idle && (u.up <==> !Stuck(s.disk) && !Refusing(s)) && (u.up ==> Current(u))
  {
    PlanKeeps(s);
    if s.disk.enroll.Some? {
      ResumedExactly(s, s.disk.enroll.value);
      hide Inv, Going;
      EnrollGoes(Plan(s), s.disk.enroll.value, n);
    } else if s.disk.relay == None {
      NewGoes(s, n);
    } else if s.disk.rekey.Some? {
      var k := s.disk.rekey.value;
      if !Foreign(s.disk) { RotationExactly(s, k); }
      if Plan(s).proc.RekeyPost? {
        RekeyGoes(Plan(s), k, n);
      } else if Plan(s).proc.RekeyClear? {
        ClearGoes(Plan(s), k, n);
      } else {
        GoingIdle(Plan(s), n);
      }
    } else {
      GoingIdle(Plan(s), n);
    }
  }

  // A start without a failure comes up with the server's token in relay.json, wherever
  // enrolment or rotation was interrupted, if and only if the journals are not stuck and the
  // server has not kicked the daemon it has to ask for.
  lemma BootEndsExactly(s: State)
    requires Inv(s) && s.proc == Idle && !s.up
    ensures var u := CleanBoot(s);
      u.proc == Idle && (u.up <==> !Stuck(s.disk) && !Refusing(s)) && (u.up ==> Current(u))
  {
    var t := s.(booting := true);
    ProcKeeps(s, t);
    if Acknowledged(s.disk) {
      StartBootKeeps(s);
      var a := StartBoot(s);
      GoingOn(a, 5);
      PutKeeps(a);
      PlanIgnores(Put(a), Reconcile);
      assert Go(a) == Plan(Put(a));
      hide Going, Inv;
      PlanGoes(Put(a), 4);
    } else {
      hide Going, Inv;
      PlanGoes(t, 5);
    }
  }

  // ---------------------------------------------------------------- stuck for good

  // A stale enrolment journal, and a daemon that is down.
  predicate StaleDown(s: State) {
    Stale(s.disk) && !s.up && (s.booting ==> s.proc.EnrollPost?)
  }

  lemma StaleStays(s: State, e: Event)
    requires Inv(s) && StaleDown(s)
    ensures StaleDown(Step(s, e))
  {
    StaleRefused(s);
    match e
    case EvWrite(io) => StaleWrite(s, io);
    case _ => hide Inv;
  }

  // The server does not take an enrolment back that was rotated since.
  lemma StaleRefused(s: State)
    requires Inv(s) && Stale(s.disk)
    ensures var e := s.disk.enroll.value; e.id in s.server && s.server[e.id] != Some(e.token) && !Acknowledged(s.disk)
    ensures s.proc.EnrollPost? ==> s.proc.e == s.disk.enroll.value
  {
  }

  lemma StaleWrite(s: State, io: Io)
    requires Inv(s) && StaleDown(s)
    ensures StaleDown(Write(s, io))
  {
  }

  lemma {:induction false} StaleIsForever(s: State, events: seq<Event>)
    requires Inv(s) && StaleDown(s)
    ensures !Run(s, events).up && Stale(Run(s, events).disk)
    decreases |events|
  {
    hide Inv, Step;
    if events != [] {
      StepKeeps(s, events[0]);
      StaleStays(s, events[0]);
      StaleIsForever(Step(s, events[0]), events[1..]);
    }
  }

  predicate Fits(k: Rekey, r: Relay) { r.id == k.id && r.token in {k.prev, k.next} }

  // A rotation journal that fits neither relay.json nor an enrolment under way.
  predicate Jammed(s: State) {
    && s.disk.rekey.Some? && s.disk.relay.Some? && !Fits(s.disk.rekey.value, s.disk.relay.value)
    && (s.disk.enroll.Some? ==> !Fits(s.disk.rekey.value, s.disk.enroll.value))
    && (s.proc.EnrollSave? ==> !Fits(s.disk.rekey.value, s.proc.e))
  }

  lemma JammedStays(s: State, e: Event)
    requires Inv(s) && Jammed(s)
    ensures Jammed(Step(s, e)) && Step(s, e).disk.rekey == s.disk.rekey
  {
    match e
    case EvWrite(io) => JammedWrite(s, io);
    case EvBoot => if s.proc == Idle && !s.up && !Acknowledged(s.disk) { JammedPlan(s.(booting := true)); }
    case EvEnroll(_) => JammedMint(s);
    case EvRekey => JammedMint(s);
    case _ =>
  }

  // A new token fits no rotation made before.
  lemma JammedMint(s: State)
    requires Inv(s) && Jammed(s)
    ensures !Fits(s.disk.rekey.value, Relay(|s.owner|, |s.owner|))
  {
  }

  lemma JammedPlan(s: State)
    requires DiskOk(s) && Jammed(s)
    ensures Jammed(Plan(s)) && Plan(s).disk == s.disk
  {
  }

  lemma JammedWrite(s: State, io: Io)
    requires Inv(s) && Jammed(s)
    ensures Jammed(Write(s, io)) && Write(s, io).disk.rekey == s.disk.rekey
  {
    if s.proc == Reconcile && io == Ok {
      PutKeeps(s);
      PlanIgnores(Put(s), Reconcile);
      JammedPlan(Put(s));
    }
  }

  // Whatever is done later, the journal stays, and any start with no enrolment to resume fails.
  lemma {:induction false} JammedIsForever(s: State, events: seq<Event>)
    requires Inv(s) && Jammed(s)
    ensures var u := Run(s, events);
      u.disk.rekey == s.disk.rekey && (u.disk.enroll == None || Acknowledged(u.disk) ==> Stuck(u.disk))
    decreases |events|
  {
    if events == [] {
    } else {
      hide Inv, Step, Jammed;
      StepKeeps(s, events[0]);
      JammedStays(s, events[0]);
      JammedIsForever(Step(s, events[0]), events[1..]);
    }
  }

  // ---------------------------------------------------------------- how it comes to that

  lemma {:induction false} RunAppends(s: State, a: seq<Event>, b: seq<Event>)
    ensures Run(s, a + b) == Run(Run(s, a), b)
    decreases |a|
  {
    hide Step;
    if a == [] {
      assert a + b == b;
    } else {
      assert (a + b)[1..] == a[1..] + b;
      RunAppends(Step(s, a[0]), a[1..], b);
    }
  }

  lemma RunThree(s: State, a: Event, b: Event, c: Event)
    ensures Run(s, [a, b, c]) == Step(Step(Step(s, a), b), c)
  {
    hide Step;
    var all := [a, b, c];
    assert all[1..][1..] == [c] && [c][1..] == [];
    assert Run(s, all) == Run(Step(s, a), all[1..]) == Run(Step(Step(s, a), b), [c]);
    assert Run(Step(Step(Step(s, a), b), c), []) == Step(Step(Step(s, a), b), c);
  }

  // An enrolment up to its answer, and its writes, the last of which may fail.
  const ENROLL_BEGIN: seq<Event> := [EvEnroll(true), EvWrite(Ok), EvPost(true)]

  function EnrollEnd(second: Io, last: Io): seq<Event> { [EvWrite(Ok), EvWrite(second), EvWrite(last)] }

  lemma EnrollBegins(s: State)
    requires s.proc == Idle && !s.up && !s.booting && s.disk.enroll == None && |s.owner| !in s.server
    ensures var n := |s.owner|;
      Run(s, ENROLL_BEGIN)
      == s.(disk := s.disk.(enroll := Some(Relay(n, n))), server := s.server[n := Some(n)],
            sent := s.sent + {Enrol(Relay(n, n))}, proc := EnrollIdentity(Relay(n, n)), owner := s.owner + [n])
  {
    RunThree(s, EvEnroll(true), EvWrite(Ok), EvPost(true));
    hide Run;
  }

  // The first write is daemon.json, the second relay.json, the third clears the journal.
  lemma EnrollEnds(s: State, e: Relay, second: Io, last: Io)
    requires s.proc == EnrollIdentity(e) && !s.booting && second != FailNew && last != FailNew
    ensures Run(s, EnrollEnd(second, last))
         == s.(disk := Disk(Some(e.id), if second == Ok then Some(e) else s.disk.relay,
                            if second == Ok && last == Ok then None else s.disk.enroll, s.disk.rekey), proc := Idle)
  {
    RunThree(s, EvWrite(Ok), EvWrite(second), EvWrite(last));
    hide Run;
  }

  function RekeyBegin(answered: bool): seq<Event> { [EvRekey, EvWrite(Ok), EvPost(answered)] }

  lemma RekeyStarts(s: State)
    requires s.proc == Idle && s.disk.relay.Some? && s.disk.id.Some? && s.disk.rekey == None
    ensures var k := Rekey(s.disk.id.value, s.disk.relay.value.token, |s.owner|);
      Step(Step(s, EvRekey), EvWrite(Ok))
      == s.(disk := s.disk.(rekey := Some(k)), owner := s.owner + [k.id], proc := RekeyPost(k))
  {
  }

  lemma RekeyBegins(s: State, answered: bool)
    requires s.proc == Idle && !s.booting && s.disk.relay.Some? && s.disk.id.Some? && s.disk.rekey == None
    ensures var k := Rekey(s.disk.id.value, s.disk.relay.value.token, |s.owner|);
      var (server, ok) := Serve(s.server, Rotate(k));
      Run(s, RekeyBegin(answered))
      == s.(disk := s.disk.(rekey := Some(k)), sent := s.sent + {Rotate(k)}, owner := s.owner + [k.id],
            server := if answered then server else s.server, proc := if answered && ok then RekeyRelay(k) else Idle)
  {
    hide Run, Serve;
    RunThree(s, EvRekey, EvWrite(Ok), EvPost(answered));
    RekeyStarts(s);
    hide StartRekey, Write;
  }

  const FIRST := Relay(0, 0)

  // After a first enrolment, whose journal may still be there.
  function Enrolled(last: Io): State {
    State(Disk(Some(0), Some(FIRST), if last == Ok then None else Some(FIRST), None), map[0 := Some(0)],
          {Enrol(FIRST)}, Idle, false, false, [0])
  }

  lemma FirstEnrolled(last: Io)
    requires last != FailNew
    ensures Run(FRESH, ENROLL_BEGIN + EnrollEnd(Ok, last)) == Enrolled(last)
  {
    hide Run, Step;
    RunAppends(FRESH, ENROLL_BEGIN, EnrollEnd(Ok, last));
    EnrollBegins(FRESH);
    EnrollEnds(Run(FRESH, ENROLL_BEGIN), FIRST, Ok, last);
  }

  // A rotation whose answer is lost, then a new enrolment: the journal is of the old daemon.
  lemma ForeignJournal()
    ensures var events := ENROLL_BEGIN + EnrollEnd(Ok, Ok) + RekeyBegin(false) + (ENROLL_BEGIN + EnrollEnd(Ok, Ok));
      var s := Run(FRESH, events);
      && s.disk.rekey == Some(Rekey(0, 0, 1)) && s.disk.id == Some(2)
      && Jammed(s) && Stuck(s.disk) && s.proc == Idle && !s.up
  {
    hide Run, Step;
    FirstEnrolled(Ok);
    var a, two := Enrolled(Ok), Relay(2, 2);
    RunAppends(FRESH, ENROLL_BEGIN + EnrollEnd(Ok, Ok), RekeyBegin(false));
    RekeyBegins(a, false);
    var b := Run(a, RekeyBegin(false));
    RunAppends(FRESH, ENROLL_BEGIN + EnrollEnd(Ok, Ok) + RekeyBegin(false), ENROLL_BEGIN + EnrollEnd(Ok, Ok));
    RunAppends(b, ENROLL_BEGIN, EnrollEnd(Ok, Ok));
    EnrollBegins(b);
    EnrollEnds(Run(b, ENROLL_BEGIN), two, Ok, Ok);
  }

  const REKEY_END: seq<Event> := [EvWrite(Ok), EvWrite(Ok), EvCrash]

  lemma RekeyEnds(s: State, k: Rekey)
    requires s.proc == RekeyRelay(k) && s.disk.relay.Some?
    ensures Run(s, REKEY_END)
         == s.(disk := s.disk.(relay := Some(s.disk.relay.value.(token := k.next)), rekey := None),
               proc := Idle, booting := false, up := false)
  {
    RunThree(s, EvWrite(Ok), EvWrite(Ok), EvCrash);
    hide Run;
  }

  // An enrolment whose journal could not be cleared, then a rotation: the journal is stale.
  lemma StaleJournal()
    ensures var s := Run(FRESH, ENROLL_BEGIN + EnrollEnd(Ok, FailOld) + RekeyBegin(true) + REKEY_END);
      StaleDown(s) && Stuck(s.disk) && s.proc == Idle && s.disk.rekey == None
  {
    hide Run, Step;
    FirstEnrolled(FailOld);
    var a, k := Enrolled(FailOld), Rekey(0, 0, 1);
    RunAppends(FRESH, ENROLL_BEGIN + EnrollEnd(Ok, FailOld), RekeyBegin(true));
    RekeyBegins(a, true);
    var b := Run(a, RekeyBegin(true));
    RunAppends(FRESH, ENROLL_BEGIN + EnrollEnd(Ok, FailOld) + RekeyBegin(true), REKEY_END);
    RekeyEnds(b, k);
  }

  // A second enrolment stopped between its two files, then a rotation, which takes the daemon
  // from one and the token from the other; the enrolment is resumed and the journal stays.
  lemma CrossedJournal()
    ensures var events := ENROLL_BEGIN + EnrollEnd(Ok, Ok) + (ENROLL_BEGIN + EnrollEnd(FailOld, Ok)) + RekeyBegin(true);
      var s := Run(FRESH, events);
      s.disk.rekey == Some(Rekey(1, 0, 2)) && s.disk.enroll == Some(Relay(1, 1)) && Jammed(s) && s.proc == Idle && !s.up
  {
    hide Run, Step;
    FirstEnrolled(Ok);
    var a, two := Enrolled(Ok), Relay(1, 1);
    RunAppends(FRESH, ENROLL_BEGIN + EnrollEnd(Ok, Ok), ENROLL_BEGIN + EnrollEnd(FailOld, Ok));
    RunAppends(a, ENROLL_BEGIN, EnrollEnd(FailOld, Ok));
    EnrollBegins(a);
    EnrollEnds(Run(a, ENROLL_BEGIN), two, FailOld, Ok);
    var b := Run(a, ENROLL_BEGIN + EnrollEnd(FailOld, Ok));
    RunAppends(FRESH, ENROLL_BEGIN + EnrollEnd(Ok, Ok) + (ENROLL_BEGIN + EnrollEnd(FailOld, Ok)), RekeyBegin(true));
    RekeyBegins(b, true);
  }

  // ---------------------------------------------------------------- as the daemon runs them

  lemma RunAppend(s: State, events: seq<Event>, e: Event)
    ensures Run(s, events + [e]) == Step(Run(s, events), e)
  {
    RunAppends(s, events, [e]);
    assert Run(Run(s, events), [e]) == Run(Step(Run(s, events), e), []);
  }

  function Wrote<T>(was: T, now: T, io: Io): T { if io == FailOld then was else now }

  class Client {
    var disk: Disk
    var server: map<Id, Option<Token>>
    var sent: set<Message>
    var owner: seq<Id>
    var booting: bool
    var up: bool
    ghost var proc: Proc
    ghost var first: State
    ghost var events: seq<Event>

    ghost function Abs(): State
      reads this
    {
      State(disk, server, sent, proc, booting, up, owner)
    }

    // The state is that of a run from the first one.
    ghost predicate Valid()
      reads this
    {
      Inv(first) && Abs() == Run(first, events)
    }

    lemma Sound()
      requires Valid()
      ensures Inv(Abs())
    {
      RunKeeps(first, events);
    }

    ghost method Note(e: Event, was: State, next: Proc)
      requires Inv(first) && was == Run(first, events) && Step(was, e) == Abs().(proc := next)
      modifies this`proc, this`events
      ensures Valid() && proc == next && events == old(events) + [e]
    {
      RunAppend(first, events, e);
      events := events + [e];
      proc := next;
    }

    method Ask(m: Message, answered: bool, ghost next: Proc) returns (ok: bool)
      requires Valid()
      requires (proc.EnrollPost? && m == Enrol(proc.e) && next == EnrollIdentity(proc.e))
            || (proc.RekeyPost? && m == Rotate(proc.k) && next == RekeyRelay(proc.k))
      modifies this`server, this`sent, this`booting, this`proc, this`events
      ensures Valid() && proc == (if ok then next else Idle) && (ok ==> booting == old(booting))
      ensures ok == (answered && Serve(old(server), m).1) && events == old(events) + [EvPost(answered)]
      ensures answered ==> server == Serve(old(server), m).0
    {
      ghost var w := Abs();
      sent := sent + {m};
      ok := false;
      if answered {
        var (after, yes) := Serve(server, m);
        server, ok := after, yes;
      }
      if !ok { booting := false; }
      Note(EvPost(answered), w, if ok then next else Idle);
    }

    // One write of a file, and what comes after it.
    method Save(now: Disk, io: Io, ghost next: Proc)
      requires Valid() && !booting && Writes(proc) && proc != Reconcile && now == Written(Abs())
      requires next == AfterWrite(Abs().(disk := now)).proc
      modifies this`disk, this`proc, this`events
      ensures Valid() && disk == Wrote(old(disk), now, io) && proc == (if io == Ok then next else Idle)
      ensures old(events) <= events
    {
      hide Inv, Run;
      ghost var w := Abs();
      disk := Wrote(disk, now, io);
      Note(EvWrite(io), w, if io == Ok then next else Idle);
    }

    // The journal first, then the request, then both files, then the journal goes.
    method EnrollV2(save: Io, answered: bool, identity: Io, relay: Io, clear: Io) returns (ok: bool)
      requires Valid() && proc == Idle && !up && !booting
      modifies this`disk, this`server, this`sent, this`owner, this`booting, this`proc, this`events
      ensures Valid() && proc == Idle && old(events) <= events
      ensures ok ==> disk.relay.Some? && disk.id == Some(disk.relay.value.id) && Current(Abs())
    {
      hide Inv, Run, Serve;
      ghost var w := Abs();
      ok := false;
      var e := if disk.enroll.Some? then disk.enroll.value else Relay(|owner|, |owner|);
      if disk.enroll.Some? {
        Note(EvEnroll(true), w, EnrollPost(e));
      } else {
        owner := owner + [e.id];
        Note(EvEnroll(true), w, EnrollSave(e));
        hide Step;
        Save(disk.(enroll := Some(e)), save, EnrollPost(e));
        if save != Ok { return; }
      }
      hide Step, Written, AfterWrite, Current;
      var yes := Ask(Enrol(e), answered, EnrollIdentity(e));
      if !yes { return; }
      Granted(old(server), e);
      ok := CommitEnroll(e, identity, relay, clear);
    }

    method CommitEnroll(e: Relay, identity: Io, relay: Io, clear: Io) returns (ok: bool)
      requires Valid() && proc == EnrollIdentity(e) && !booting
      requires e.id in server && server[e.id] == Some(e.token)
      modifies this`disk, this`proc, this`events
      ensures Valid() && proc == Idle && old(events) <= events
      ensures ok ==> disk.relay == Some(e) && disk.id == Some(e.id) && Current(Abs())
    {
      hide Inv, Run, Step;
      ok := false;
      Save(disk.(id := Some(e.id)), identity, EnrollRelay(e));
      if identity != Ok { return; }
      Save(disk.(relay := Some(e)), relay, EnrollClear(e));
      if relay != Ok { return; }
      Save(disk.(enroll := None), clear, Idle);
      ok := clear == Ok;
    }

    // The journal first, or the one that is there; it goes when relay.json has the next token.
    method RekeyV2(save: Io, answered: bool, relay: Io, clear: Io) returns (ok: bool)
      requires Valid() && proc == Idle && !booting
      modifies this`disk, this`server, this`sent, this`owner, this`booting, this`proc, this`events
      ensures Valid() && proc == Idle && old(events) <= events
      ensures ok ==> disk.rekey == None && disk.relay.Some? && disk.relay.value.id in server
                     && server[disk.relay.value.id] in {None, Some(disk.relay.value.token)}
    {
      hide Inv, Run, Serve;
      ghost var w := Abs();
      ok := false;
      if disk.relay == None || disk.id == None {
        Note(EvRekey, w, Idle);
        return;
      }
      var k := if disk.rekey.Some? then disk.rekey.value else Rekey(disk.id.value, disk.relay.value.token, |owner|);
      if disk.rekey.Some? {
        if disk.id != Some(k.id) || disk.relay.value.token !in {k.prev, k.next} {
          Note(EvRekey, w, Idle);
          return;
        }
        Note(EvRekey, w, if disk.relay.value.token == k.next then RekeyClear(k) else RekeyPost(k));
      } else {
        owner := owner + [k.id];
        Note(EvRekey, w, RekeySave(k));
        hide Step;
        Save(disk.(rekey := Some(k)), save, RekeyPost(k));
        if save != Ok { return; }
      }
      hide Step, Written, AfterWrite;
      ok := FinishPendingRekey(k, answered, relay, clear);
    }

    method FinishPendingRekey(k: Rekey, answered: bool, relay: Io, clear: Io) returns (ok: bool)
      requires Valid() && !booting && (proc == RekeyPost(k) || proc == RekeyClear(k))
      modifies this`disk, this`server, this`sent, this`booting, this`proc, this`events
      ensures Valid() && proc == Idle && old(events) <= events
      ensures ok ==> disk.rekey == None && disk.relay.Some? && disk.relay.value.id in server
                     && server[disk.relay.value.id] in {None, Some(disk.relay.value.token)}
    {
      hide Inv, Run, Step, Serve;
      Sound();
      RotatingIs(Abs(), k);
      ok := false;
      if disk.relay.value.token != k.next {
        var yes := Ask(Rotate(k), answered, RekeyRelay(k));
        if !yes { return; }
        Save(disk.(relay := Some(disk.relay.value.(token := k.next))), relay, RekeyClear(k));
        if relay != Ok { return; }
      }
      Save(disk.(rekey := None), clear, Idle);
      Sound();
      ok := clear == Ok;
      if ok { UnjournaledIsCurrent(Abs()); }
    }
  }

  lemma Granted(server: map<Id, Option<Token>>, e: Relay)
    requires Serve(server, Enrol(e)).1
    ensures var after := Serve(server, Enrol(e)).0; e.id in after && after[e.id] == Some(e.token)
  {
  }

  lemma RotatingIs(s: State, k: Rekey)
    requires Inv(s) && (s.proc == RekeyPost(k) || s.proc == RekeyClear(k))
    ensures s.disk.relay.Some? && (s.disk.relay.value.token == k.next <==> s.proc == RekeyClear(k))
  {
  }

  lemma UnjournaledIsCurrent(s: State)
    requires Inv(s) && s.disk.relay.Some? && s.disk.rekey == None
    ensures s.disk.relay.value.id in s.server
    ensures s.server[s.disk.relay.value.id] in {None, Some(s.disk.relay.value.token)}
  {
  }
}
