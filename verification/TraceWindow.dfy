/**
  The sliding window of a trace read: events come in line by line, later output is attached
  to earlier tool calls, adjacent text is merged, and the oldest events are dropped, all under
  one running byte count.
 */
module TraceWindow {
  import opened Basics
  import opened Clipping
  import opened TraceClip

  const MAX_EVENT := 65536
  const MAX_ITEMS := 221184

  const USER: Text := [0x75, 0x73, 0x65, 0x72]
  const ASSISTANT: Text := [0x61, 0x73, 0x73, 0x69, 0x73, 0x74, 0x61, 0x6E, 0x74]
  const THINKING: Text := [0x74, 0x68, 0x69, 0x6E, 0x6B, 0x69, 0x6E, 0x67]
  const TOOL: Text := [0x74, 0x6F, 0x6F, 0x6C]
  const DONE: Text := [0xE5, 0xAE, 0x8C, 0xE6, 0x88, 0x90]
  const FAILED: Text := [0xE5, 0xA4, 0xB1, 0xE8, 0xB4, 0xA5]

  datatype Item = Item(ev: Event, call: Text, mergeKey: Text, start: nat, detail: bool, summary: bool)
  datatype Parsed = Parsed(ev: Event, call: Text, mergeKey: Text, outputOnly: bool)

  datatype Window = Window(
    items: seq<Item>, starts: seq<nat>, pageBytes: int, older: bool, truncated: bool, orphan: Option<Item>)

  // ---------------------------------------------------------------- the invariant

  ghost function Total(items: seq<Item>): nat {
    if items == [] then 0 else Total(items[..|items| - 1]) + EventSize(items[|items| - 1].ev)
  }

  // Types are short words, and tool names match a pattern of at most 128 bytes.
  predicate Named(ev: Event) { |ev.typ| <= 9 && |ev.name| <= 128 }

  ghost predicate Ordered(items: seq<Item>) {
    forall i, j :: 0 <= i < j < |items| ==> items[i].start <= items[j].start
  }

  ghost predicate AllNamed(items: seq<Item>) {
    forall i :: 0 <= i < |items| ==> Named(items[i].ev)
  }

  ghost predicate Starts(items: seq<Item>, starts: seq<nat>) {
    |starts| == |items| && forall i :: 0 <= i < |items| ==> starts[i] == items[i].start
  }

  ghost predicate InOrder(items: seq<Item>, starts: seq<nat>) {
    Starts(items, starts) && Ordered(items) && AllNamed(items)
  }

  ghost predicate Inv(w: Window, limit: nat) {
    && w.pageBytes == Total(w.items) <= MAX_ITEMS
    && |w.items| == |w.starts| <= limit && InOrder(w.items, w.starts)
    && (w.orphan.Some? ==> w.orphan.value.ev.typ == USER && EventSize(w.orphan.value.ev) <= MAX_ITEMS)
  }

  ghost predicate AllUpTo(items: seq<Item>, line: nat) {
    forall i :: 0 <= i < |items| ==> items[i].start <= line
  }

  // Nothing in the window starts after this line.
  ghost predicate UpTo(w: Window, line: nat) { AllUpTo(w.items, line) }

  lemma TailInOrder(items: seq<Item>, starts: seq<nat>, line: nat)
    requires InOrder(items, starts) && AllUpTo(items, line) && items != []
    ensures InOrder(items[1..], starts[1..]) && AllUpTo(items[1..], line)
  {
  }

  lemma MoreInOrder(items: seq<Item>, starts: seq<nat>, it: Item)
    requires InOrder(items, starts) && AllUpTo(items, it.start) && Named(it.ev)
    ensures InOrder(items + [it], starts + [it.start]) && AllUpTo(items + [it], it.start)
  {
  }

  lemma PutInOrder(items: seq<Item>, starts: seq<nat>, line: nat, i: nat, it: Item)
    requires InOrder(items, starts) && AllUpTo(items, line) && i < |items| && it.start == items[i].start && Named(it.ev)
    ensures InOrder(items[i := it], starts) && AllUpTo(items[i := it], line)
  {
  }

  lemma {:induction false} TotalConcat(a: seq<Item>, b: seq<Item>)
    ensures Total(a + b) == Total(a) + Total(b)
    decreases |b|
  {
    if b == [] {
      assert a + b == a;
    } else {
      assert (a + b)[..|a + b| - 1] == a + b[..|b| - 1];
      TotalConcat(a, b[..|b| - 1]);
    }
  }

  lemma TotalOne(it: Item)
    ensures Total([it]) == EventSize(it.ev)
  {
    assert [it][..0] == [];
  }

  lemma TotalSplit(items: seq<Item>, i: nat)
    requires i < |items|
    ensures Total(items) == Total(items[..i]) + EventSize(items[i].ev) + Total(items[i + 1..])
  {
    hide Total;
    assert items == items[..i] + ([items[i]] + items[i + 1..]);
    TotalConcat(items[..i], [items[i]] + items[i + 1..]);
    TotalConcat([items[i]], items[i + 1..]);
    TotalOne(items[i]);
  }

  lemma TotalReplace(items: seq<Item>, i: nat, it: Item)
    requires i < |items|
    ensures Total(items[i := it]) == Total(items) - EventSize(items[i].ev) + EventSize(it.ev)
  {
    TotalSplit(items, i);
    TotalSplit(items[i := it], i);
    assert items[i := it][..i] == items[..i] && items[i := it][i + 1..] == items[i + 1..];
  }

  lemma BaseBound(ev: Event)
    requires Named(ev)
    ensures Base(ev) <= 843 && Base(ev) <= EventSize(ev)
  {
    CostBounds(ev.typ);
    CostBounds(ev.name);
  }

  // ---------------------------------------------------------------- clipping twice

  // Clipped to the event limit, then to the room left on the page.
  ghost function Refit(ev: Event, room: int): Option<Event> {
    match Fitted(ev, MAX_EVENT)
    case None => None
    case Some(first) => Fitted(first, room)
  }

  ghost predicate WasCut(ev: Event, limit: int) {
    LongField(ev) || (EventSize(Cut(ev)) > limit && Largest(Cut(ev)).Some?)
  }

  // The first clip always ends and fits.
  lemma FirstFits(ev: Event)
    requires Named(ev)
    ensures Fitted(ev, MAX_EVENT).Some? && EventSize(Fitted(ev, MAX_EVENT).value) <= MAX_EVENT
    ensures SameHead(ev, Fitted(ev, MAX_EVENT).value)
  {
    BaseBound(ev);
    RoomSuffices(Cut(ev), MAX_EVENT);
    RoundsKeepHead(Cut(ev), MAX_EVENT);
  }

  // Clipping leaves the type and the name alone.
  ghost predicate SameHead(a: Event, b: Event) { a.typ == b.typ && a.name == b.name }

  lemma {:induction false} RoundsKeepHead(ev: Event, limit: int)
    ensures Rounds(ev, limit).Some? ==> SameHead(ev, Rounds(ev, limit).value)
    decreases Length(ev), LooseFields(ev)
  {
    hide EventSize, EncodedLen, Fixed, Halved;
    if EventSize(ev) > limit && Largest(ev).Some? && !Stuck(ev) {
      ShrinkDecreases(ev);
      RoundsKeepHead(Shrink(ev), limit);
    }
  }

  // If the second clip ends, the event fits wherever its fixed part did.
  lemma RefitFits(ev: Event, room: int)
    requires Named(ev) && Refit(ev, room).Some? && room >= Base(ev)
    ensures EventSize(Refit(ev, room).value) <= room && SameHead(ev, Refit(ev, room).value)
  {
    FirstFits(ev);
    var first := Fitted(ev, MAX_EVENT).value;
    hide Rounds, EventSize;
    EndsExactly(Cut(first), room);
    RoundsKeepHead(Cut(first), room);
  }

  // ---------------------------------------------------------------- steps

  predicate Placeholder(output: Text) { output == [] || output == DONE || output == FAILED }

  // Whether a tool call waits for this output.
  predicate Accepts(it: Item, call: Text) {
    it.ev.typ == TOOL && Placeholder(it.ev.output) && (call == [] || it.call == [] || it.call == call)
  }

  lemma AcceptsIs(it: Item, call: Text)
    ensures Accepts(it, call) <==>
              it.ev.typ == TOOL && Placeholder(it.ev.output) && (call == [] || it.call == [] || it.call == call)
  {
  }

  // The latest call that accepts it.
  ghost function Target(items: seq<Item>, call: Text): (t: Option<nat>)
    ensures t.Some? ==> t.value < |items| && Accepts(items[t.value], call)
    ensures t.Some? ==> forall j :: t.value < j < |items| ==> !Accepts(items[j], call)
    ensures t == None ==> forall j :: 0 <= j < |items| ==> !Accepts(items[j], call)
  {
    if items == [] then None
    else if Accepts(items[|items| - 1], call) then Some(|items| - 1)
    else Target(items[..|items| - 1], call)
  }

  predicate CanMerge(items: seq<Item>, p: Parsed) {
    && !p.outputOnly && p.mergeKey != [] && items != [] && p.ev.typ in {USER, ASSISTANT, THINKING}
    && var last := items[|items| - 1];
       last.ev.typ == p.ev.typ && last.mergeKey == p.mergeKey && p.ev.text != [] && last.ev.text != []
  }

  ghost function Room(w: Window, i: nat): int
    requires i < |w.items|
  {
    MAX_ITEMS - (w.pageBytes - EventSize(w.items[i].ev))
  }

  ghost function PutItem(w: Window, i: nat, it: Item, truncated: bool): Window
    requires i < |w.items|
  {
    w.(items := w.items[i := it], pageBytes := w.pageBytes - EventSize(w.items[i].ev) + EventSize(it.ev),
       truncated := truncated)
  }

  ghost function Attach(w: Window, i: nat, output: Text): Option<Window>
    requires i < |w.items|
  {
    var it := w.items[i];
    var ev := it.ev.(output := output);
    match Refit(ev, Room(w, i))
    case None => None
    case Some(r) =>
      var detail := it.detail || WasCut(ev, MAX_EVENT) || WasCut(Fitted(ev, MAX_EVENT).value, Room(w, i));
      Some(PutItem(w, i, it.(ev := r, detail := detail), w.truncated || detail))
  }

  ghost function Merge(w: Window, text: Text): Option<Window>
    requires w.items != []
  {
    var i := |w.items| - 1;
    var it := w.items[i];
    var ev := it.ev.(text := it.ev.text + text);
    match Refit(ev, Room(w, i))
    case None => None
    case Some(r) =>
      var cut := WasCut(ev, MAX_EVENT) || WasCut(Fitted(ev, MAX_EVENT).value, Room(w, i));
      Some(PutItem(w, i, it.(ev := r, summary := it.summary || cut), w.truncated || cut))
  }

  ghost function DropFront(w: Window): Window
    requires w.items != [] && w.starts != []
  {
    w.(items := w.items[1..], starts := w.starts[1..], pageBytes := w.pageBytes - EventSize(w.items[0].ev),
       older := true, orphan := if w.items[0].ev.typ == USER then Some(w.items[0]) else w.orphan)
  }

  ghost predicate Full(w: Window, size: nat, limit: nat) {
    |w.items| >= limit || (w.items != [] && w.pageBytes + size > MAX_ITEMS)
  }

  ghost function MakeRoom(w: Window, size: nat, limit: nat): Window
    requires |w.starts| == |w.items| && limit >= 1
    decreases |w.items|
  {
    if Full(w, size, limit) then MakeRoom(DropFront(w), size, limit) else w
  }

  ghost function Append(w: Window, p: Parsed, line: nat, limit: nat): Option<Window>
    requires |w.starts| == |w.items| && limit >= 1
  {
    match Fitted(p.ev, MAX_EVENT)
    case None => None
    case Some(ev) =>
      var cut := WasCut(p.ev, MAX_EVENT);
      var it := Item(ev, p.call, p.mergeKey, line, ev.typ == TOOL && cut, ev.typ != TOOL && cut);
      var m := MakeRoom(w.(truncated := w.truncated || cut), EventSize(ev), limit);
      Some(m.(items := m.items + [it], starts := m.starts + [line], pageBytes := m.pageBytes + EventSize(ev)))
  }

  // One event of the line starting at `line`; None when clipping does not end.
  ghost function Feed(w: Window, p: Parsed, line: nat, limit: nat): Option<Window>
    requires |w.starts| == |w.items| && limit >= 1
  {
    if p.outputOnly && p.ev.output == [] then Some(w)
    else if p.outputOnly && Target(w.items, p.call).Some? then Attach(w, Target(w.items, p.call).value, p.ev.output)
    else if p.outputOnly && p.ev.name == [] then Some(w)
    else if CanMerge(w.items, p) then Merge(w, p.ev.text)
    else Append(w, p, line, limit)
  }

  // ---------------------------------------------------------------- every step keeps it

  lemma PutItemKeeps(w: Window, limit: nat, i: nat, it: Item, truncated: bool, line: nat)
    requires Inv(w, limit) && UpTo(w, line) && i < |w.items| && it.start == w.items[i].start && Named(it.ev)
    requires EventSize(it.ev) <= Room(w, i)
    ensures Inv(PutItem(w, i, it, truncated), limit) && UpTo(PutItem(w, i, it, truncated), line)
  {
    hide Total, EventSize, InOrder, AllUpTo;
    TotalReplace(w.items, i, it);
    PutInOrder(w.items, w.starts, line, i, it);
  }

  lemma RoomForBase(w: Window, limit: nat, i: nat)
    requires Inv(w, limit) && i < |w.items|
    ensures Room(w, i) >= EventSize(w.items[i].ev) >= Base(w.items[i].ev) && Named(w.items[i].ev)
  {
    TotalSplit(w.items, i);
    BaseBound(w.items[i].ev);
  }

  lemma AttachKeeps(w: Window, limit: nat, i: nat, output: Text, line: nat)
    requires Inv(w, limit) && UpTo(w, line) && i < |w.items|
    ensures var u := Attach(w, i, output); u.Some? ==> Inv(u.value, limit) && UpTo(u.value, line)
  {
    RoomForBase(w, limit, i);
    var it := w.items[i];
    var ev := it.ev.(output := output);
    assert Base(ev) == Base(it.ev);
    hide Inv, EventSize, Refit, WasCut, Room, PutItem, UpTo;
    if Refit(ev, Room(w, i)).Some? {
      RefitFits(ev, Room(w, i));
      var detail := it.detail || WasCut(ev, MAX_EVENT) || WasCut(Fitted(ev, MAX_EVENT).value, Room(w, i));
      var next := it.(ev := Refit(ev, Room(w, i)).value, detail := detail);
      PutItemKeeps(w, limit, i, next, w.truncated || detail, line);
    }
  }

  lemma BaseOfText(ev: Event, text: Text)
    ensures Base(ev.(text := text)) == Base(ev)
  {
    hide EncodedLen;
  }

  lemma MergeKeeps(w: Window, limit: nat, text: Text, line: nat)
    requires Inv(w, limit) && UpTo(w, line) && w.items != []
    ensures var u := Merge(w, text); u.Some? ==> Inv(u.value, limit) && UpTo(u.value, line)
  {
    hide Inv, EventSize, Fitted, WasCut, Room, PutItem, UpTo, Base;
    var i := |w.items| - 1;
    RoomForBase(w, limit, i);
    var it := w.items[i];
    var ev := it.ev.(text := it.ev.text + text);
    BaseOfText(it.ev, it.ev.text + text);
    if Refit(ev, Room(w, i)).Some? {
      RefitFits(ev, Room(w, i));
      var cut := WasCut(ev, MAX_EVENT) || WasCut(Fitted(ev, MAX_EVENT).value, Room(w, i));
      var next := it.(ev := Refit(ev, Room(w, i)).value, summary := it.summary || cut);
      PutItemKeeps(w, limit, i, next, w.truncated || cut, line);
    }
  }

  lemma TotalFirst(items: seq<Item>)
    requires items != []
    ensures Total(items) == EventSize(items[0].ev) + Total(items[1..])
  {
    hide EventSize;
    assert Total(items[..0]) == 0;
    TotalSplit(items, 0);
  }

  lemma DropFrontKeeps(w: Window, limit: nat, line: nat)
    requires Inv(w, limit) && UpTo(w, line) && w.items != []
    ensures Inv(DropFront(w), limit) && UpTo(DropFront(w), line)
  {
    hide Total, EventSize, InOrder, AllUpTo;
    TotalFirst(w.items);
    TailInOrder(w.items, w.starts, line);
  }

  lemma {:induction false} MakeRoomKeeps(w: Window, size: nat, limit: nat, line: nat)
    requires Inv(w, limit) && UpTo(w, line) && limit >= 1 && size <= MAX_ITEMS
    ensures Inv(MakeRoom(w, size, limit), limit) && UpTo(MakeRoom(w, size, limit), line)
    ensures |MakeRoom(w, size, limit).items| < limit && MakeRoom(w, size, limit).pageBytes + size <= MAX_ITEMS
    decreases |w.items|
  {
    assert w.items == [] ==> Total(w.items) == 0;
    if Full(w, size, limit) {
      DropFrontKeeps(w, limit, line);
      hide Inv, DropFront, UpTo;
      MakeRoomKeeps(DropFront(w), size, limit, line);
    }
  }

  lemma AppendKeeps(w: Window, p: Parsed, line: nat, limit: nat)
    requires Inv(w, limit) && UpTo(w, line) && limit >= 1 && Named(p.ev)
    ensures Append(w, p, line, limit).Some?
    ensures Inv(Append(w, p, line, limit).value, limit) && UpTo(Append(w, p, line, limit).value, line)
  {
    hide Total, EventSize, MakeRoom, Fitted, WasCut, InOrder, AllUpTo;
    FirstFits(p.ev);
    var ev := Fitted(p.ev, MAX_EVENT).value;
    var cut := WasCut(p.ev, MAX_EVENT);
    var it := Item(ev, p.call, p.mergeKey, line, ev.typ == TOOL && cut, ev.typ != TOOL && cut);
    var start := w.(truncated := w.truncated || cut);
    MakeRoomKeeps(start, EventSize(ev), limit, line);
    var m := MakeRoom(start, EventSize(ev), limit);
    TotalConcat(m.items, [it]);
    TotalOne(it);
    MoreInOrder(m.items, m.starts, it);
  }

  lemma FeedKeeps(w: Window, p: Parsed, line: nat, limit: nat)
    requires |w.starts| == |w.items| && Inv(w, limit) && UpTo(w, line) && limit >= 1 && Named(p.ev)
    ensures var u := Feed(w, p, line, limit); u.Some? ==> Inv(u.value, limit) && UpTo(u.value, line)
  {
    hide Inv, UpTo, Attach, Merge, Append, CanMerge;
    if p.outputOnly && p.ev.output == [] {
    } else if p.outputOnly && Target(w.items, p.call).Some? {
      AttachKeeps(w, limit, Target(w.items, p.call).value, p.ev.output, line);
    } else if p.outputOnly && p.ev.name == [] {
    } else if CanMerge(w.items, p) {
      assert w.items != [] by { MergeNeedsItems(w.items, p); }
      MergeKeeps(w, limit, p.ev.text, line);
    } else {
      AppendKeeps(w, p, line, limit);
    }
  }

  lemma Lengths(w: Window, limit: nat)
    requires Inv(w, limit)
    ensures |w.starts| == |w.items|
  {
  }

  lemma MergeNeedsItems(items: seq<Item>, p: Parsed)
    requires CanMerge(items, p)
    ensures items != []
  {
  }

  datatype Line = Line(p: Parsed, start: nat)

  const EMPTY := Window([], [], 0, false, false, None)

  // The window after a file's events, in file order.
  ghost function FeedAll(lines: seq<Line>, limit: nat): Option<Window>
    requires limit >= 1
  {
    if lines == [] then Some(EMPTY)
    else
      var last := lines[|lines| - 1];
      match FeedAll(lines[..|lines| - 1], limit)
      case None => None
      case Some(w) => if |w.starts| == |w.items| then Feed(w, last.p, last.start, limit) else None
  }

  ghost predicate FileOrder(lines: seq<Line>) {
    && (forall i :: 0 <= i < |lines| ==> Named(lines[i].p.ev))
    && (forall i, j :: 0 <= i < j < |lines| ==> lines[i].start <= lines[j].start)
  }

  lemma {:induction false} WindowKeeps(lines: seq<Line>, limit: nat)
    requires limit >= 1 && FileOrder(lines)
    ensures FeedAll(lines, limit).Some? ==> Inv(FeedAll(lines, limit).value, limit)
    ensures FeedAll(lines, limit).Some? && lines != [] ==> UpTo(FeedAll(lines, limit).value, lines[|lines| - 1].start)
    decreases |lines|
  {
    hide Inv, UpTo, Feed;
    if lines == [] {
      EmptyOk(limit);
    } else {
      var before, last := lines[..|lines| - 1], lines[|lines| - 1];
      WindowKeeps(before, limit);
      if FeedAll(before, limit).Some? {
        var w := FeedAll(before, limit).value;
        Lengths(w, limit);
        if before == [] { EmptyUpTo(last.start); } else { UpToLater(w, before[|before| - 1].start, last.start); }
        FeedKeeps(w, last.p, last.start, limit);
      }
    }
  }

  lemma EmptyOk(limit: nat)
    ensures Inv(EMPTY, limit)
  {
  }

  lemma EmptyUpTo(line: nat)
    ensures UpTo(EMPTY, line)
  {
  }

  lemma UpToLater(w: Window, line: nat, later: nat)
    requires UpTo(w, line) && line <= later
    ensures UpTo(w, later)
  {
  }

  // Making room drops from the front only, and no more than it has to.
  lemma {:induction false} MakeRoomDrops(w: Window, size: nat, limit: nat) returns (k: nat)
    requires |w.starts| == |w.items| && limit >= 1
    ensures k <= |w.items| && MakeRoom(w, size, limit).items == w.items[k..]
        && MakeRoom(w, size, limit).starts == w.starts[k..]
    ensures !Full(MakeRoom(w, size, limit), size, limit)
    ensures k == 0 <==> !Full(w, size, limit)
    decreases |w.items|
  {
    hide EventSize;
    k := 0;
    if Full(w, size, limit) {
      var j := MakeRoomDrops(DropFront(w), size, limit);
      k := j + 1;
      assert w.items[1..][j..] == w.items[k..] && w.starts[1..][j..] == w.starts[k..];
    } else {
      assert w.items[0..] == w.items && w.starts[0..] == w.starts;
    }
  }

  // A fitting event is kept as it came.
  lemma FittingIsKept(ev: Event, room: int)
    requires |ev.text| <= MAX_MESSAGE_BYTES && |ev.input| <= MAX_MESSAGE_BYTES && |ev.output| <= MAX_MESSAGE_BYTES
    requires EventSize(ev) <= MAX_EVENT && EventSize(ev) <= room
    ensures Fitted(ev, MAX_EVENT) == Some(ev) && Refit(ev, room) == Some(ev)
    ensures !WasCut(ev, MAX_EVENT) && !WasCut(ev, room)
  {
    assert Cut(ev) == ev;
  }

  // An event that starts an item of its own is the last one of the window, behind what is
  // left of the others.
  lemma AppendShows(w: Window, p: Parsed, line: nat, limit: nat) returns (k: nat)
    requires |w.starts| == |w.items| && limit >= 1 && Named(p.ev)
    ensures Append(w, p, line, limit).Some? && k <= |w.items|
    ensures var u := Append(w, p, line, limit).value;
      && |u.items| == |w.items| - k + 1 && u.items[..|u.items| - 1] == w.items[k..]
      && u.items[|u.items| - 1].start == line && SameHead(p.ev, u.items[|u.items| - 1].ev)
      && (EventSize(Cut(p.ev)) <= MAX_EVENT ==> u.items[|u.items| - 1].ev == Cut(p.ev))
  {
    FirstFits(p.ev);
    hide EventSize, Cut, MakeRoom, SameHead, LongField;
    var ev := Fitted(p.ev, MAX_EVENT).value;
    k := MakeRoomDrops(w.(truncated := w.truncated || WasCut(p.ev, MAX_EVENT)), EventSize(ev), limit);
  }

  // ---------------------------------------------------------------- when clipping ends

  // What the first clip leaves settles where the whole would.
  lemma FirstSettles(ev: Event)
    requires Named(ev)
    ensures Fitted(ev, MAX_EVENT).Some?
    ensures var first := Fitted(ev, MAX_EVENT).value;
      Cut(first) == first && Settled(first) == Settled(Cut(ev)) && Winner(first) == Winner(Cut(ev))
        && Base(first) == Base(ev)
  {
    FirstFits(ev);
    var first := Fitted(ev, MAX_EVENT).value;
    ShortIsWhole(first);
    EndsExactly(Cut(ev), MAX_EVENT);
    hide Rounds, Settled, Winner, EventSize;
    var n := StopsAfter(Cut(ev), MAX_EVENT);
    SettledAfter(Cut(ev), n);
  }

  lemma ShortIsWhole(ev: Event)
    requires EventSize(ev) <= MAX_EVENT
    ensures Cut(ev) == ev && !LongField(ev)
  {
    CostBounds(ev.text);
    CostBounds(ev.input);
    CostBounds(ev.output);
  }

  // Attaching and merging end if and only if the room left on the page admits the event its
  // fields settle at, and always with 96 bytes to spare.
  lemma RefitEndsExactly(ev: Event, room: int)
    requires Named(ev) && room >= Base(ev)
    ensures Refit(ev, room).Some? <==> EventSize(Settled(Cut(ev))) <= room
    ensures room >= Base(ev) + ROOM ==> Refit(ev, room).Some?
  {
    hide Settled, Winner, EventSize, Rounds, Cut, Base;
    FirstSettles(ev);
    var first := Fitted(ev, MAX_EVENT).value;
    EndsExactly(first, room);
    SettledAtBase(first);
    if room >= Base(ev) + ROOM { RoomSuffices(first, room); }
  }

  // The clip a feed makes to the room left on the page, if it makes one.
  ghost function Squeeze(w: Window, p: Parsed): Option<(Event, int)> {
    if p.outputOnly && p.ev.output == [] then None
    else if p.outputOnly && Target(w.items, p.call).Some? then
      var i := Target(w.items, p.call).value;
      Some((w.items[i].ev.(output := p.ev.output), Room(w, i)))
    else if CanMerge(w.items, p) then
      var i := |w.items| - 1;
      Some((w.items[i].ev.(text := w.items[i].ev.text + p.ev.text), Room(w, i)))
    else None
  }

  // A feed does not return if and only if what it has to squeeze settles above the room.
  lemma FeedEndsExactly(w: Window, p: Parsed, line: nat, limit: nat)
    requires |w.starts| == |w.items| && Inv(w, limit) && UpTo(w, line) && limit >= 1 && Named(p.ev)
    ensures Feed(w, p, line, limit) == None <==>
              Squeeze(w, p).Some? && EventSize(Settled(Cut(Squeeze(w, p).value.0))) > Squeeze(w, p).value.1
  {
    if Squeeze(w, p).Some? {
      var i := if p.outputOnly then Target(w.items, p.call).value else |w.items| - 1;
      RoomForBase(w, limit, i);
      assert Base(Squeeze(w, p).value.0) == Base(w.items[i].ev);
      hide Inv, UpTo, EventSize, Settled, Cut, Refit, Base, Room, PutItem, WasCut;
      RefitEndsExactly(Squeeze(w, p).value.0, Squeeze(w, p).value.1);
    } else {
      hide UpTo, EventSize, Settled, Cut, Attach, Merge;
      if !(p.outputOnly && (p.ev.output == [] || p.ev.name == [])) { AppendKeeps(w, p, line, limit); }
    }
  }

  // On a page that is full to the byte, a tool call with nothing but its name takes an output
  // if and only if halving leaves nothing of it.
  lemma FullPageHangs(w: Window, limit: nat, i: nat, output: Text)
    requires Inv(w, limit) && w.pageBytes == MAX_ITEMS && i < |w.items|
    requires w.items[i].ev.text == [] && w.items[i].ev.input == [] && w.items[i].ev.output == []
    ensures Attach(w, i, output).Some? <==> FieldFloor(Clip(output, MAX_MESSAGE_BYTES)) == []
  {
    var ev := w.items[i].ev.(output := output);
    RoomForBase(w, limit, i);
    assert Base(ev) == Base(w.items[i].ev) == Room(w, i) by { BareIsBase(w.items[i].ev); }
    assert Base(Cut(ev)) == Base(ev) && Get(Cut(ev), OutputField) == Clip(output, MAX_MESSAGE_BYTES);
    assert Get(Cut(ev), TextField) == [] && Get(Cut(ev), InputField) == [] && FieldFloor([]) == [];
    hide Inv, EventSize, Settled, Cut, Refit, Base, Room, PutItem, WasCut, FieldFloor;
    RefitEndsExactly(ev, Room(w, i));
    SettledAtBase(Cut(ev));
    NoWinner(Cut(ev));
    assert (forall f :: FieldFloor(Get(Cut(ev), f)) == []) <==> FieldFloor(Get(Cut(ev), OutputField)) == [];
  }

  lemma BareIsBase(ev: Event)
    requires ev.text == [] && ev.input == [] && ev.output == []
    ensures EventSize(ev) == Base(ev)
  {
  }

  // ---------------------------------------------------------------- a transcript that hangs

  // Small letters are written as they are.
  lemma {:induction false} PlainCost(s: Text)
    requires forall i :: 0 <= i < |s| ==> 0x61 <= s[i] <= 0x7A
    ensures Cost(s) == |s|
    decreases |s|
  {
    if s != [] {
      assert RuneLen(s) == 1 && RuneCost(s) == 1;
      PlainCost(s[1..]);
    }
  }

  function Letters(n: nat): Text { seq(n, i => 0x61) }

  // A message of the assistant, and how much it takes.
  function Spoken(n: nat): Parsed { Parsed(Event(ASSISTANT, Letters(n), [], [], []), [], [], false) }

  // A call of the tool sh without arguments.
  const CALL := Parsed(Event(TOOL, [], [0x73, 0x68], [], []), [], [], false)

  const RESULT := Parsed(Event(TOOL, [], [], [], SMALL), [], [], true)

  lemma Sizes(n: nat)
    ensures EventSize(Spoken(n).ev) == 20 + if n == 0 then 0 else n + 10
    ensures EventSize(CALL.ev) == 27
  {
    hide Cost;
    PlainCost(Letters(n));
    PlainCost(ASSISTANT);
    PlainCost(TOOL);
    PlainCost(CALL.ev.name);
  }

  // An event that fits with its page is appended as it is.
  lemma FeedAppends(w: Window, p: Parsed, line: nat, limit: nat)
    requires |w.starts| == |w.items| < limit && !p.outputOnly && p.mergeKey == []
    requires EventSize(p.ev) <= MAX_EVENT && (w.items == [] || w.pageBytes + EventSize(p.ev) <= MAX_ITEMS)
    ensures Feed(w, p, line, limit) == Some(w.(items := w.items + [Item(p.ev, p.call, [], line, false, false)],
                                               starts := w.starts + [line], pageBytes := w.pageBytes + EventSize(p.ev)))
  {
    hide EventSize, Fitted, WasCut, Cut;
    ShortIsWhole(p.ev);
    FittingIsKept(p.ev, MAX_EVENT);
    assert w.(truncated := w.truncated || false) == w;
    NoRoomNeeded(w, EventSize(p.ev), limit);
  }

  lemma NoRoomNeeded(w: Window, size: nat, limit: nat)
    requires |w.starts| == |w.items| && limit >= 1 && !Full(w, size, limit)
    ensures MakeRoom(w, size, limit) == w
  {
  }

  // A call, four messages that fill the page to the byte, and the call's result.
  function FullFile(): seq<Line> {
    [Line(CALL, 0), Line(Spoken(65506), 100), Line(Spoken(65506), 70000), Line(Spoken(65506), 140000),
     Line(Spoken(24519), 210000)]
  }

  function HangingFile(): seq<Line> { FullFile() + [Line(RESULT, 240000)] }

  // Reading that transcript does not return, for any limit that admits five items.
  lemma HangingFileHangs(limit: nat)
    requires limit >= 5
    ensures FileOrder(HangingFile()) && FeedAll(HangingFile(), limit) == None
  {
    hide EventSize, Feed, FeedAll, Inv;
    FilesInOrder();
    FullPage(limit);
    var w := FeedAll(FullFile(), limit).value;
    WindowKeeps(FullFile(), limit);
    SmallHangs(w, limit);
    ResultMeetsCall(w, limit);
    FeedMore(FullFile(), Line(RESULT, 240000), limit, w);
  }

  lemma FilesInOrder()
    ensures FileOrder(FullFile()) && FileOrder(HangingFile())
  {
    hide Letters;
    var f := HangingFile();
    forall i | 0 <= i < |f| ensures Named(f[i].p.ev) { }
    assert FullFile() == f[..5];
  }

  lemma SmallHangs(w: Window, limit: nat)
    requires Inv(w, limit) && w.pageBytes == MAX_ITEMS && w.items != [] && w.items[0].ev == CALL.ev
    ensures Attach(w, 0, SMALL) == None
  {
    SmallIsFixed();
    FieldFloorOfFixed(SMALL);
    hide EventSize, Attach, FieldFloor, Fixed, Inv;
    FullPageHangs(w, limit, 0, SMALL);
  }

  // The result goes to the only call there is.
  lemma ResultMeetsCall(w: Window, limit: nat)
    requires |w.starts| == |w.items| && limit >= 1 && |w.items| == 5 && w.items[0].ev == CALL.ev
    requires forall i :: 1 <= i < 5 ==> w.items[i].ev.typ == ASSISTANT
    requires Attach(w, 0, SMALL) == None
    ensures Feed(w, RESULT, 240000, limit) == None
  {
    hide Attach;
    assert TOOL[0] != ASSISTANT[0];
    assert Accepts(w.items[0], []);
    assert Target(w.items, []) == Some(0);
  }

  lemma FullPage(limit: nat)
    requires limit >= 5
    ensures var w := FeedAll(FullFile(), limit);
      && w.Some? && |w.value.items| == 5 && |w.value.starts| == 5 && w.value.pageBytes == MAX_ITEMS
      && w.value.items[0].ev == CALL.ev && forall i :: 1 <= i < 5 ==> w.value.items[i].ev.typ == ASSISTANT
  {
    hide Feed, EventSize, FeedAll;
    var f := FullFile();
    Sizes(65506);
    Sizes(24519);
    FeedNone(limit);
    var a := FeedOne([], EMPTY, f[0], limit);
    assert [] + [f[0]] == [f[0]];
    var b := FeedOne([f[0]], a, f[1], limit);
    var c := FeedOne([f[0]] + [f[1]], b, f[2], limit);
    var d := FeedOne([f[0]] + [f[1]] + [f[2]], c, f[3], limit);
    var e := FeedOne([f[0]] + [f[1]] + [f[2]] + [f[3]], d, f[4], limit);
    assert f == [f[0]] + [f[1]] + [f[2]] + [f[3]] + [f[4]];
  }

  lemma FeedNone(limit: nat)
    requires limit >= 1
    ensures FeedAll([], limit) == Some(EMPTY)
  {
  }

  lemma FeedMore(before: seq<Line>, last: Line, limit: nat, w: Window)
    requires limit >= 1 && FeedAll(before, limit) == Some(w) && |w.starts| == |w.items|
    ensures FeedAll(before + [last], limit) == Feed(w, last.p, last.start, limit)
  {
    hide Feed;
    assert (before + [last])[..|before|] == before;
  }

  lemma FeedOne(before: seq<Line>, w: Window, last: Line, limit: nat) returns (u: Window)
    requires |w.starts| == |w.items| < limit && FeedAll(before, limit) == Some(w)
    requires !last.p.outputOnly && last.p.mergeKey == [] && EventSize(last.p.ev) <= MAX_EVENT
    requires w.items == [] || w.pageBytes + EventSize(last.p.ev) <= MAX_ITEMS
    ensures FeedAll(before + [last], limit) == Some(u) && |u.starts| == |u.items| == |w.items| + 1
    ensures u.items[..|w.items|] == w.items && u.items[|w.items|].ev == last.p.ev
    ensures u.pageBytes == w.pageBytes + EventSize(last.p.ev)
  {
    hide Feed, EventSize, FeedAll;
    FeedAppends(w, last.p, last.start, limit);
    FeedMore(before, last, limit, w);
    u := Feed(w, last.p, last.start, limit).value;
  }

  // ---------------------------------------------------------------- the page

  // An orphan, the last user message dropped, may push out more of the front.
  ghost function Trimmed(w: Window): Window
    requires |w.starts| == |w.items|
    decreases |w.items|
  {
    if w.orphan.Some? && |w.items| > 1 && w.pageBytes + EventSize(w.orphan.value.ev) > MAX_ITEMS
    then Trimmed(w.(items := w.items[1..], starts := w.starts[1..],
      pageBytes := w.pageBytes - EventSize(w.items[0].ev)))
    else w
  }

  ghost predicate ShowsOrphan(w: Window, limit: nat) {
    && w.orphan.Some? && |w.items| < limit && (w.items == [] || w.items[0].ev.typ != USER)
    && w.pageBytes + EventSize(w.orphan.value.ev) <= MAX_ITEMS
  }

  ghost function Shown(w: Window, limit: nat): seq<Item>
    requires |w.starts| == |w.items|
  {
    var t := Trimmed(w);
    (if ShowsOrphan(t, limit) then [t.orphan.value] else []) + t.items
  }

  ghost function NextCursor(w: Window, scanStart: nat): Option<nat>
    requires |w.starts| == |w.items|
  {
    var t := Trimmed(w);
    var offset := if t.starts == [] then scanStart else t.starts[0];
    if (scanStart > 0 || w.older) && offset > 0 then Some(offset) else None
  }

  lemma {:induction false} TrimmedKeeps(w: Window, limit: nat, line: nat)
    requires |w.starts| == |w.items| && Inv(w, limit) && UpTo(w, line)
    ensures Inv(Trimmed(w), limit) && Trimmed(w).orphan == w.orphan
    ensures |Trimmed(w).items| <= |w.items| && Trimmed(w).items == w.items[|w.items| - |Trimmed(w).items|..]
    decreases |w.items|
  {
    hide Inv, UpTo, EventSize;
    if w.orphan.Some? && |w.items| > 1 && w.pageBytes + EventSize(w.orphan.value.ev) > MAX_ITEMS {
      Lengths(w, limit);
      var t := w.(items := w.items[1..], starts := w.starts[1..], pageBytes := w.pageBytes - EventSize(w.items[0].ev));
      TailKeeps(w, limit, line);
      TrimmedKeeps(t, limit, line);
      var k := |t.items| - |Trimmed(t).items|;
      assert t.items[k..] == w.items[k + 1..];
    } else {
      assert w.items[0..] == w.items;
    }
  }

  lemma TailKeeps(w: Window, limit: nat, line: nat)
    requires Inv(w, limit) && UpTo(w, line) && w.items != []
    ensures var t := w.(items := w.items[1..], starts := w.starts[1..],
        pageBytes := w.pageBytes - EventSize(w.items[0].ev));
      Inv(t, limit) && UpTo(t, line)
  {
    hide Total, EventSize, InOrder, AllUpTo;
    TotalFirst(w.items);
    TailInOrder(w.items, w.starts, line);
  }

  // A page stays in both bounds with its orphan, and shows the latest events of the window.
  lemma PageBounds(w: Window, limit: nat, line: nat)
    requires Inv(w, limit) && UpTo(w, line)
    ensures |Shown(w, limit)| <= limit && Total(Shown(w, limit)) <= MAX_ITEMS
    ensures exists k :: 0 <= k <= |w.items| &&
              (Shown(w, limit) == w.items[k..]
                || (w.orphan.Some? && Shown(w, limit) == [w.orphan.value] + w.items[k..]))
  {
    var t := Trimmed(w);
    TrimmedKeeps(w, limit, line);
    hide EventSize, InOrder, Trimmed, AllUpTo;
    if ShowsOrphan(t, limit) {
      TotalConcat([t.orphan.value], t.items);
      TotalOne(t.orphan.value);
    } else {
      assert [] + t.items == t.items;
    }
    assert Shown(w, limit) == w.items[|w.items| - |t.items|..]
        || (w.orphan.Some? && Shown(w, limit) == [w.orphan.value] + w.items[|w.items| - |t.items|..]);
  }

  // ---------------------------------------------------------------- the window as the reader runs it

  class Reader {
    var items: seq<Item>
    var starts: seq<nat>
    var pageBytes: int
    var older: bool
    var truncated: bool
    var orphan: Option<Item>
    const limit: nat

    ghost function Abs(): Window
      reads this
    {
      Window(items, starts, pageBytes, older, truncated, orphan)
    }

    constructor (max: nat)
      ensures Abs() == EMPTY && limit == max
    {
      items, starts, pageBytes, older, truncated, orphan := [], [], 0, false, false, None;
      limit := max;
    }

    method FindTarget(call: Text) returns (t: Option<nat>)
      ensures t == Target(items, call)
    {
      hide Accepts;
      var i := |items|;
      while i > 0
        invariant 0 <= i <= |items| && Target(items, call) == Target(items[..i], call)
      {
        i := i - 1;
        assert items[..i + 1][..i] == items[..i];
        assert Accepts(items[i], call) <==>
               items[i].ev.typ == TOOL && Placeholder(items[i].ev.output)
               && (call == [] || items[i].call == [] || items[i].call == call) by { AcceptsIs(items[i], call); }
        if items[i].ev.typ == TOOL && Placeholder(items[i].ev.output)
           && (call == [] || items[i].call == [] || items[i].call == call) {
          return Some(i);
        }
      }
      t := None;
    }

    method AttachOutput(i: nat, output: Text)
      requires Inv(Abs(), limit) && i < |items| && Attach(Abs(), i, output).Some?
      modifies this
      ensures Some(Abs()) == Attach(old(Abs()), i, output)
    {
      hide Inv, Fitted, EventSize, LongField, Largest, Cut;
      var it := items[i];
      pageBytes := pageBytes - EventSize(it.ev);
      var ev, cut := ClipEventToLimit(it.ev.(output := output), MAX_EVENT, it.detail);
      ev, cut := ClipEventToLimit(ev, MAX_ITEMS - pageBytes, cut);
      items := items[i := it.(ev := ev, detail := cut)];
      truncated := truncated || cut;
      pageBytes := pageBytes + EventSize(ev);
    }

    method MergeText(text: Text)
      requires Inv(Abs(), limit) && items != [] && Merge(Abs(), text).Some?
      modifies this
      ensures Some(Abs()) == Merge(old(Abs()), text)
    {
      hide Inv, Fitted, EventSize, LongField, Largest, Cut;
      var last := items[|items| - 1];
      pageBytes := pageBytes - EventSize(last.ev);
      var ev, cut := ClipEventToLimit(last.ev.(text := last.ev.text + text), MAX_EVENT, false);
      ev, cut := ClipEventToLimit(ev, MAX_ITEMS - pageBytes, cut);
      items := items[|items| - 1 := last.(ev := ev, summary := last.summary || cut)];
      truncated := truncated || cut;
      pageBytes := pageBytes + EventSize(ev);
    }

    method DropOldest()
      requires items != [] && |starts| == |items|
      modifies this
      ensures Abs() == DropFront(old(Abs()))
    {
      older := true;
      if items[0].ev.typ == USER { orphan := Some(items[0]); }
      pageBytes := pageBytes - EventSize(items[0].ev);
      items := items[1..];
      starts := starts[1..];
    }

    method AppendEvent(p: Parsed, line: nat)
      requires |starts| == |items| && limit >= 1 && Named(p.ev)
      modifies this
      ensures Some(Abs()) == Append(old(Abs()), p, line, limit)
    {
      hide Fitted, EventSize, LongField, Largest, Cut;
      FirstFits(p.ev);
      var ev, cut := ClipEventToLimit(p.ev, MAX_EVENT, false);
      var it := Item(ev, p.call, p.mergeKey, line, ev.typ == TOOL && cut, ev.typ != TOOL && cut);
      truncated := truncated || cut;
      ghost var from := Abs();
      var size := EventSize(ev);
      while |items| >= limit || (|items| > 0 && pageBytes + size > MAX_ITEMS)
        invariant |starts| == |items| && MakeRoom(Abs(), size, limit) == MakeRoom(from, size, limit)
        decreases |items|
      {
        DropOldest();
      }
      items := items + [it];
      starts := starts + [line];
      pageBytes := pageBytes + size;
    }

    method FeedEvent(p: Parsed, line: nat)
      requires Inv(Abs(), limit) && limit >= 1 && Named(p.ev) && Feed(Abs(), p, line, limit).Some?
      modifies this
      ensures Some(Abs()) == Feed(old(Abs()), p, line, limit)
    {
      hide Attach, Merge, Append, InOrder, Total, EventSize;
      if p.outputOnly {
        if p.ev.output == [] { return; }
        var t := FindTarget(p.call);
        if t.Some? {
          AttachOutput(t.value, p.ev.output);
          return;
        }
        if p.ev.name == [] { return; }
      }
      if CanMerge(items, p) {
        MergeText(p.ev.text);
      } else {
        AppendEvent(p, line);
      }
    }

    method ToPage(scanStart: nat) returns (shown: seq<Item>, next: Option<nat>)
      requires |starts| == |items|
      modifies this
      ensures shown == Shown(old(Abs()), limit) && next == NextCursor(old(Abs()), scanStart)
    {
      hide EventSize;
      ghost var w := Abs();
      if orphan.Some? {
        while |items| > 1 && pageBytes + EventSize(orphan.value.ev) > MAX_ITEMS
          invariant |starts| == |items| && orphan == w.orphan && older == w.older && orphan.Some?
          invariant Trimmed(Abs()) == Trimmed(w)
          decreases |items|
        {
          pageBytes := pageBytes - EventSize(items[0].ev);
          items := items[1..];
          starts := starts[1..];
        }
      }
      shown := [];
      if orphan.Some? && |items| < limit && (|items| == 0 || items[0].ev.typ != USER)
         && pageBytes + EventSize(orphan.value.ev) <= MAX_ITEMS {
        shown := [orphan.value];
      }
      shown := shown + items;
      next := None;
      if scanStart > 0 || older {
        var offset := if |starts| > 0 then starts[0] else scanStart;
        if offset > 0 { next := Some(offset); }
      }
    }
  }
}
