/**
  Transcript pages: a reader that stops at a number of messages and a number of bytes, and
  resumes at a cursor, against one read of the whole file.

  What a line says is a parameter of the model.
 */
module Pages {
  import opened Basics
  import opened Clipping

  datatype Message = Message(role: Text, text: Text)
  datatype Format = Format(parse: Text -> Option<Message>)
  datatype Page = Page(messages: seq<Message>, next: Option<nat>, truncated: bool)
  datatype Read = Ok(page: Page) | Err

  const MAX_LINE := 2097152
  const MAX_MESSAGE_BYTES := 65536
  const MAX_PAGE_ITEMS_BYTES := 221184
  const MAX_SCAN := 33554432

  // A parser yields the roles user and assistant.
  ghost predicate Sane(f: Format) {
    forall line :: f.parse(line).Some? ==> |f.parse(line).value.role| <= 9
  }

  // The length of {"role":...,"text":...}.
  function MessageSize(m: Message): nat { 17 + EncodedLen(m.role) + EncodedLen(m.text) }

  lemma MessageBound(m: Message)
    ensures MessageSize(m) <= 6 * |m.role| + 6 * |m.text| + 21
  {
    CostBounds(m.role);
    CostBounds(m.text);
  }

  // ---------------------------------------------------------------- clipping a message

  ghost function Shrunk(m: Message): Message
    requires |m.role| <= 9
    decreases |m.text|
  {
    if MessageSize(m) <= MAX_MESSAGE_BYTES then m
    else
      MessageBound(m);
      ClipIs(m.text, |m.text| / 2);
      Shrunk(m.(text := Clip(m.text, |m.text| / 2)))
  }

  ghost function Clipped(m: Message): Message
    requires |m.role| <= 9
  {
    Shrunk(m.(text := Clip(m.text, MAX_MESSAGE_BYTES)))
  }

  ghost predicate IsClipped(m: Message) {
    |m.text| > MAX_MESSAGE_BYTES || MessageSize(m) > MAX_MESSAGE_BYTES
  }

  lemma {:induction false} ShrunkIs(m: Message)
    requires |m.role| <= 9
    ensures MessageSize(Shrunk(m)) <= MAX_MESSAGE_BYTES && Shrunk(m).role == m.role
    decreases |m.text|
  {
    if MessageSize(m) > MAX_MESSAGE_BYTES {
      MessageBound(m);
      ClipIs(m.text, |m.text| / 2);
      ShrunkIs(m.(text := Clip(m.text, |m.text| / 2)));
    }
  }

  // Shrinking a cut text cuts it again in front of the ellipsis.
  lemma {:induction false} ShrunkCut(m: Message, whole: Text, n: nat) returns (k: nat)
    requires |m.role| <= 9 && n <= |whole| && Valid(whole[..n]) && m.text == whole[..n] + ELLIPSIS
    ensures k <= |whole| && Valid(whole[..k]) && Shrunk(m).text == whole[..k] + ELLIPSIS
    decreases |m.text|
  {
    k := n;
    if MessageSize(m) > MAX_MESSAGE_BYTES {
      MessageBound(m);
      ClipIs(m.text, |m.text| / 2);
      var cut := CutPoint(m.text, |m.text| / 2);
      assert m.text[..cut] == whole[..cut];
      k := ShrunkCut(m.(text := Clip(m.text, |m.text| / 2)), whole, cut);
    }
  }

  // A message fits and keeps its role; its text is whole, or a valid prefix of the
  // original and an ellipsis.
  lemma ClippedIs(m: Message) returns (k: nat)
    requires |m.role| <= 9
    ensures MessageSize(Clipped(m)) <= MAX_MESSAGE_BYTES && Clipped(m).role == m.role
    ensures !IsClipped(m) ==> Clipped(m) == m
    ensures IsClipped(m) ==> k <= |m.text| && Valid(m.text[..k]) && Clipped(m).text == m.text[..k] + ELLIPSIS
  {
    var first := m.(text := Clip(m.text, MAX_MESSAGE_BYTES));
    ShrunkIs(first);
    k := 0;
    if |m.text| > MAX_MESSAGE_BYTES {
      ClipIs(m.text, MAX_MESSAGE_BYTES);
      k := ShrunkCut(first, m.text, CutPoint(m.text, MAX_MESSAGE_BYTES));
    } else if MessageSize(m) > MAX_MESSAGE_BYTES {
      assert first == m;
      MessageBound(m);
      ClipIs(m.text, |m.text| / 2);
      k := ShrunkCut(m.(text := Clip(m.text, |m.text| / 2)), m.text, CutPoint(m.text, |m.text| / 2));
    }
  }

  lemma ClippedFits(m: Message)
    requires |m.role| <= 9
    ensures MessageSize(Clipped(m)) <= MAX_MESSAGE_BYTES
  {
    ShrunkIs(m.(text := Clip(m.text, MAX_MESSAGE_BYTES)));
  }

  method ClipMessage(m: Message, already: bool) returns (r: Message, truncated: bool)
    requires |m.role| <= 9
    ensures r == Clipped(m) && truncated == (already || IsClipped(m))
  {
    var text, cut := ClipText(m.text, MAX_MESSAGE_BYTES);
    r, truncated := m.(text := text), already || cut;
    while MessageSize(r) > MAX_MESSAGE_BYTES
      invariant r.role == m.role && Shrunk(r) == Clipped(m)
      invariant truncated ==> already || IsClipped(m)
      invariant already || |m.text| > MAX_MESSAGE_BYTES ==> truncated
      invariant r == m || truncated
      decreases |r.text|
    {
      MessageBound(r);
      ClipIs(r.text, |r.text| / 2);
      text, cut := ClipText(r.text, |r.text| / 2);
      r, truncated := r.(text := text), true;
    }
  }

  // ---------------------------------------------------------------- one read of the whole file

  const LF := 10
  const CR := 13

  function LineEnd(file: Text, at: nat): (e: nat)
    requires at <= |file|
    ensures at <= e <= |file| && (e < |file| ==> file[e] == LF)
    ensures forall i :: at <= i < e ==> file[i] != LF
    decreases |file| - at
  {
    if at == |file| || file[at] == LF then at else LineEnd(file, at + 1)
  }

  // A line as the scanner returns it: a carriage return at its end is dropped.
  function Token(file: Text, at: nat): Text
    requires at <= |file|
  {
    var line := file[at..LineEnd(file, at)];
    if line != [] && line[|line| - 1] == CR then line[..|line| - 1] else line
  }

  function NextLine(file: Text, at: nat): (n: nat)
    requires at < |file|
    ensures at < n <= |file|
  {
    var e := LineEnd(file, at);
    if e < |file| then e + 1 else e
  }

  // A parseable line: where it starts, what it says once clipped, and whether it was.
  datatype Entry = Entry(start: nat, message: Message, clipped: bool)

  ghost function Entries(f: Format, file: Text, at: nat): seq<Entry>
    requires Sane(f) && at <= |file|
    decreases |file| - at
  {
    if at == |file| then []
    else
      var rest := Entries(f, file, NextLine(file, at));
      match f.parse(Token(file, at))
      case None => rest
      case Some(m) => [Entry(at, Clipped(m), IsClipped(m))] + rest
  }

  lemma {:induction false} EntryStarts(f: Format, file: Text, at: nat, n: nat)
    requires Sane(f) && at <= |file| && n < |Entries(f, file, at)|
    ensures at <= Entries(f, file, at)[n].start < |file|
    ensures n > 0 ==> at < Entries(f, file, at)[n].start
    ensures Entries(f, file, Entries(f, file, at)[n].start) == Entries(f, file, at)[n..]
    decreases |file| - at
  {
    var all := Entries(f, file, at);
    var next := NextLine(file, at);
    match f.parse(Token(file, at)) {
      case None => EntryStarts(f, file, next, n);
      case Some(m) =>
        if n > 0 {
          EntryStarts(f, file, next, n - 1);
          assert all[n..] == Entries(f, file, next)[n - 1..];
        }
    }
  }

  // The reader counts a line as its token and one byte. That is where the next line
  // starts if and only if no carriage return was dropped.
  lemma CountIsExact(file: Text, at: nat)
    requires at <= |file| && LineEnd(file, at) < |file|
    ensures at + |Token(file, at)| + 1 == NextLine(file, at)
       <==> !(LineEnd(file, at) > at && file[LineEnd(file, at) - 1] == CR)
  {
  }

  // A line other than the last ends in a carriage return and a line feed.
  ghost predicate InnerCr(file: Text) {
    exists i :: 0 < i && i + 1 < |file| && file[i] == LF && file[i - 1] == CR
  }

  // How many line feeds between two positions have their carriage return there too.
  ghost function Crlf(file: Text, from: nat, end: nat): nat
    requires end <= |file|
  {
    if end < from + 2 then 0
    else Crlf(file, from, end - 1) + if file[end - 2] == CR && file[end - 1] == LF then 1 else 0
  }

  lemma {:induction false} CrlfSmall(file: Text, from: nat, end: nat)
    requires from <= end <= |file|
    ensures 2 * Crlf(file, from, end) <= end - from
    ensures end >= from + 2 ==> 2 * Crlf(file, from, end - 1) <= end - 1 - from
    decreases end
  {
    if end >= from + 2 {
      CrlfSmall(file, from, end - 1);
      if file[end - 1] == LF && file[end - 2] == CR && end >= from + 3 {
        assert file[end - 2] != LF;
        CrlfSmall(file, from, end - 2);
      }
    }
  }

  lemma {:induction false} CrlfNone(file: Text, from: nat, end: nat)
    requires from <= end < |file| && !InnerCr(file)
    ensures Crlf(file, from, end) == 0
    decreases end
  {
    if end >= from + 2 { CrlfNone(file, from, end - 1); }
  }

  // A scan is at the start of a line.
  ghost predicate AtLine(file: Text, from: nat, at: nat) {
    at == from || (from < at <= |file| && file[at - 1] == LF)
  }

  lemma {:induction false} CrlfInside(file: Text, from: nat, at: nat, k: nat)
    requires from <= at <= k <= |file| && AtLine(file, from, at) && forall i :: at <= i < k ==> file[i] != LF
    ensures Crlf(file, from, k) == Crlf(file, from, at)
    decreases k
  {
    if k > at { CrlfInside(file, from, at, k - 1); }
  }

  // One more line adds what was dropped from it.
  lemma CrlfLine(file: Text, from: nat, at: nat)
    requires from <= at < |file| && AtLine(file, from, at) && LineEnd(file, at) < |file|
    ensures NextLine(file, at) - Crlf(file, from, NextLine(file, at))
         == at - Crlf(file, from, at) + |Token(file, at)| + 1
    ensures AtLine(file, from, NextLine(file, at))
  {
    CrlfInside(file, from, at, LineEnd(file, at));
  }

  // Where the reader thinks a line starts.
  ghost function Counted(file: Text, from: nat, end: nat): (p: nat)
    requires from <= end <= |file|
    ensures from <= p <= end && (from < end ==> from < p) && (!InnerCr(file) && end < |file| ==> p == end)
  {
    CrlfSmall(file, from, end);
    assert !InnerCr(file) && end < |file| ==> Crlf(file, from, end) == 0 by {
      if !InnerCr(file) && end < |file| { CrlfNone(file, from, end); }
    }
    end - Crlf(file, from, end)
  }

  // ---------------------------------------------------------------- one page

  ghost function Bytes(messages: seq<Message>): nat {
    if messages == [] then 0 else Bytes(messages[..|messages| - 1]) + MessageSize(messages[|messages| - 1])
  }

  // A page holds the first entries, as many as fit, and its cursor is where the first one
  // left out starts, less one for every carriage return dropped before it. The entry that did
  // not fit also sets the truncated flag.
  ghost predicate IsPage(f: Format, file: Text, at: nat, limit: nat, page: Page)
    requires Sane(f) && at <= |file|
  {
    var all, n := Entries(f, file, at), |page.messages|;
    && n <= |all| && n <= limit && Bytes(page.messages) <= MAX_PAGE_ITEMS_BYTES
    && (forall i :: 0 <= i < n ==> page.messages[i] == all[i].message)
    && (n == |all| ==> page.next == None)
    && (n < |all| ==>
          && n > 0 && at <= all[n].start <= |file| && page.next == Some(Counted(file, at, all[n].start))
          && (n == limit || Bytes(page.messages) + MessageSize(all[n].message) > MAX_PAGE_ITEMS_BYTES))
    && (page.truncated <==> exists i :: 0 <= i <= n && i < |all| && all[i].clipped)
  }

  // Why a read may fail.
  ghost predicate TooLong(file: Text, at: nat) {
    (exists o :: at <= o <= |file| && LineEnd(file, o) - o >= MAX_LINE) || |file| + 1 - at > MAX_SCAN
  }

  // What the reader has when it is about to scan the line at `at`.
  ghost predicate SoFar(f: Format, file: Text, offset: nat, limit: nat, at: nat, messages: seq<Message>,
                        truncated: bool)
    requires Sane(f) && offset <= |file| && at <= |file|
  {
    var all := Entries(f, file, offset);
    && Holds(all, messages, truncated) && all[|messages|..] == Entries(f, file, at)
    && |messages| <= limit && Bytes(messages) <= MAX_PAGE_ITEMS_BYTES
  }

  // The messages are the first entries, and the flag says whether one of them was clipped.
  ghost predicate Holds(all: seq<Entry>, messages: seq<Message>, truncated: bool) {
    && |messages| <= |all|
    && (forall i :: 0 <= i < |messages| ==> messages[i] == all[i].message)
    && (truncated <==> exists i :: 0 <= i < |messages| && all[i].clipped)
  }

  lemma HoldsMore(all: seq<Entry>, messages: seq<Message>, truncated: bool)
    requires Holds(all, messages, truncated) && |messages| < |all|
    ensures Holds(all, messages + [all[|messages|].message], truncated || all[|messages|].clipped)
  {
  }

  lemma ScanSkips(f: Format, file: Text, offset: nat, limit: nat, at: nat, messages: seq<Message>, truncated: bool)
    requires Sane(f) && offset <= |file| && at < |file| && SoFar(f, file, offset, limit, at, messages, truncated)
    requires f.parse(Token(file, at)) == None
    ensures SoFar(f, file, offset, limit, NextLine(file, at), messages, truncated)
  {
  }

  // The line at `at` is the next entry.
  lemma ScanFinds(f: Format, file: Text, offset: nat, limit: nat, at: nat, messages: seq<Message>, truncated: bool)
    requires Sane(f) && offset <= |file| && at < |file| && SoFar(f, file, offset, limit, at, messages, truncated)
    requires f.parse(Token(file, at)).Some?
    ensures var all, m := Entries(f, file, offset), f.parse(Token(file, at)).value;
      && |messages| < |all| && all[|messages|] == Entry(at, Clipped(m), IsClipped(m))
      && all[|messages| + 1..] == Entries(f, file, NextLine(file, at))
  {
    var all := Entries(f, file, offset);
    assert all[|messages|..][0] == all[|messages|] && all[|messages|..][1..] == all[|messages| + 1..];
    var m := f.parse(Token(file, at)).value;
    assert ([Entry(at, Clipped(m), IsClipped(m))] + Entries(f, file, NextLine(file, at)))[1..]
        == Entries(f, file, NextLine(file, at));
  }

  lemma BytesMore(messages: seq<Message>, m: Message)
    ensures Bytes(messages + [m]) == Bytes(messages) + MessageSize(m)
    ensures messages == [] ==> Bytes(messages) == 0
  {
    assert (messages + [m])[..|messages|] == messages;
  }

  lemma ScanAdds(f: Format, file: Text, offset: nat, limit: nat, at: nat, messages: seq<Message>, truncated: bool,
                 m: Message)
    requires Sane(f) && offset <= |file| && at < |file| && SoFar(f, file, offset, limit, at, messages, truncated)
    requires f.parse(Token(file, at)) == Some(m)
    requires |messages| < limit && (messages == [] || Bytes(messages) + MessageSize(Clipped(m)) <= MAX_PAGE_ITEMS_BYTES)
    ensures SoFar(f, file, offset, limit, NextLine(file, at), messages + [Clipped(m)], truncated || IsClipped(m))
    ensures Bytes(messages + [Clipped(m)]) == Bytes(messages) + MessageSize(Clipped(m))
  {
    hide Entries, Clipped, Sane, IsClipped, MessageSize;
    ScanFinds(f, file, offset, limit, at, messages, truncated);
    ShortRole(f, Token(file, at));
    ClippedFits(m);
    HoldsMore(Entries(f, file, offset), messages, truncated);
    BytesMore(messages, Clipped(m));
    hide Holds, Bytes;
  }

  lemma ScanStops(f: Format, file: Text, offset: nat, limit: nat, at: nat, messages: seq<Message>, truncated: bool,
                  m: Message)
    requires Sane(f) && offset <= |file| && at < |file| && SoFar(f, file, offset, limit, at, messages, truncated)
    requires f.parse(Token(file, at)) == Some(m) && limit >= 1
    requires |messages| >= limit || (messages != [] && Bytes(messages) + MessageSize(Clipped(m)) > MAX_PAGE_ITEMS_BYTES)
    ensures offset <= at
    ensures IsPage(f, file, offset, limit, Page(messages, Some(Counted(file, offset, at)), truncated || IsClipped(m)))
  {
    hide Entries, Clipped, Sane, IsClipped, MessageSize, Counted;
    ScanFinds(f, file, offset, limit, at, messages, truncated);
    EntryStarts(f, file, offset, |messages|);
  }

  lemma ScanEnds(f: Format, file: Text, offset: nat, limit: nat, messages: seq<Message>, truncated: bool)
    requires Sane(f) && offset <= |file| && SoFar(f, file, offset, limit, |file|, messages, truncated)
    ensures IsPage(f, file, offset, limit, Page(messages, None, truncated))
  {
    assert Entries(f, file, |file|) == [];
  }

  // Where the reader is, in the file and by its own count.
  ghost predicate Placed(file: Text, offset: nat, at: nat, position: nat) {
    && offset <= at <= |file| && offset <= position <= |file| + 1
    && (at < |file| ==> AtLine(file, offset, at) && position == Counted(file, offset, at))
  }

  lemma ScanMoves(file: Text, offset: nat, at: nat, position: nat)
    requires Placed(file, offset, at, position) && at < |file|
    ensures Placed(file, offset, NextLine(file, at), position + |Token(file, at)| + 1)
  {
    hide Crlf, InnerCr;
    if LineEnd(file, at) < |file| { CrlfLine(file, offset, at); }
  }

  method ReadPage(f: Format, file: Text, offset: int, limit: nat) returns (r: Read)
    requires Sane(f) && limit >= 1
    ensures r.Ok? ==> 0 <= offset <= |file| && IsPage(f, file, offset, limit, r.page)
    ensures r.Err? ==> !(0 <= offset <= |file|) || TooLong(file, offset)
  {
    if offset < 0 || offset > |file| { return Err; }
    var messages, truncated, bytes := [], false, 0;
    var at: nat, position: nat, scanned: nat := offset, offset, 0;
    assert Entries(f, file, offset)[0..] == Entries(f, file, offset);
    while at < |file|
      invariant Placed(file, offset, at, position) && scanned == position - offset
      invariant SoFar(f, file, offset, limit, at, messages, truncated) && bytes == Bytes(messages)
      decreases |file| - at
    {
      hide SoFar, IsPage, Clipped, IsClipped, Sane, MessageSize, Entries, Counted, Crlf, AtLine, Token, NextLine;
      var token, lineStart := Token(file, at), position;
      if LineEnd(file, at) - at >= MAX_LINE { return Err; }
      ScanMoves(file, offset, at, position);
      position := position + |token| + 1;
      scanned := scanned + |token| + 1;
      if scanned > MAX_SCAN { return Err; }
      var parsed := f.parse(token);
      if parsed.Some? {
        assert |parsed.value.role| <= 9 by { ShortRole(f, token); }
        var m, clipped := ClipMessage(parsed.value, truncated);
        var size := MessageSize(m);
        if |messages| >= limit || (|messages| > 0 && bytes + size > MAX_PAGE_ITEMS_BYTES) {
          ScanStops(f, file, offset, limit, at, messages, truncated, parsed.value);
          return Ok(Page(messages, Some(lineStart), clipped));
        }
        ScanAdds(f, file, offset, limit, at, messages, truncated, parsed.value);
        bytes := bytes + size;
        messages, truncated := messages + [m], clipped;
      } else {
        ScanSkips(f, file, offset, limit, at, messages, truncated);
      }
      at := NextLine(file, at);
    }
    ScanEnds(f, file, offset, limit, messages, truncated);
    r := Ok(Page(messages, None, truncated));
  }

  lemma ShortRole(f: Format, line: Text)
    requires Sane(f) && f.parse(line).Some?
    ensures |f.parse(line).value.role| <= 9
  {
  }

  // ---------------------------------------------------------------- following the cursors

  ghost function Said(all: seq<Entry>): seq<Message> {
    seq(|all|, i requires 0 <= i < |all| => all[i].message)
  }

  ghost function Concat(pages: seq<Page>): seq<Message> {
    if pages == [] then [] else pages[0].messages + Concat(pages[1..])
  }

  // Pages read one after the other, each at the cursor of the one before, until there is
  // none. The limit may change from page to page.
  ghost predicate Chain(f: Format, file: Text, at: nat, pages: seq<Page>, limits: seq<nat>)
    requires Sane(f)
    decreases |pages|
  {
    && at <= |file| && |pages| == |limits| > 0
    && IsPage(f, file, at, limits[0], pages[0])
    && (match pages[0].next
        case None => |pages| == 1
        case Some(next) => next > at && Chain(f, file, next, pages[1..], limits[1..]))
  }

  lemma PageAdvances(f: Format, file: Text, at: nat, limit: nat, page: Page)
    requires Sane(f) && at <= |file| && IsPage(f, file, at, limit, page) && page.next.Some?
    ensures at < page.next.value < |file|
    ensures !InnerCr(file) ==> Entries(f, file, page.next.value) == Entries(f, file, at)[|page.messages|..]
    ensures !InnerCr(file) ==> Said(Entries(f, file, at)) == page.messages + Said(Entries(f, file, page.next.value))
  {
    EntryStarts(f, file, at, |page.messages|);
  }

  // All of them together say what one read of the file says, once and in order.
  lemma {:induction false} ChainIsWhole(f: Format, file: Text, at: nat, pages: seq<Page>, limits: seq<nat>)
    requires Sane(f) && !InnerCr(file) && Chain(f, file, at, pages, limits)
    ensures Concat(pages) == Said(Entries(f, file, at))
    ensures |pages| <= 1 + |Entries(f, file, at)|
    decreases |pages|
  {
    match pages[0].next {
      case None =>
        assert Concat(pages) == pages[0].messages + [];
      case Some(next) =>
        PageAdvances(f, file, at, limits[0], pages[0]);
        ChainIsWhole(f, file, next, pages[1..], limits[1..]);
    }
  }

  // Stops early only at a cursor whose read fails.
  method FollowCursors(f: Format, file: Text, limit: nat) returns (pages: seq<Page>, stuck: Option<nat>)
    requires Sane(f) && limit >= 1
    ensures !InnerCr(file) && stuck == None ==> Concat(pages) == Said(Entries(f, file, 0))
    ensures stuck.Some? ==> TooLong(file, stuck.value)
  {
    hide IsPage, Sane, InnerCr, Entries, Said, Concat, TooLong;
    pages, stuck := [], None;
    FirstPage(f, file);
    var cursor: Option<nat> := Some(0);
    while cursor.Some? && stuck == None
      invariant cursor.Some? ==> cursor.value <= |file| && (!InnerCr(file) ==> Resumes(f, file, pages, cursor.value))
      invariant !InnerCr(file) && cursor == None ==> Concat(pages) == Said(Entries(f, file, 0))
      invariant stuck.Some? ==> TooLong(file, stuck.value)
      decreases stuck == None, cursor.Some?, if cursor.Some? then |file| - cursor.value else 0
    {
      var at := cursor.value;
      var r := ReadPage(f, file, at, limit);
      if r.Ok? {
        NextPage(f, file, pages, at, limit, r.page);
        pages, cursor := pages + [r.page], r.page.next;
      } else {
        stuck := Some(at);
      }
    }
  }

  // What the pages so far leave to be read.
  ghost predicate Resumes(f: Format, file: Text, pages: seq<Page>, at: nat)
    requires Sane(f) && at <= |file|
  {
    Said(Entries(f, file, 0)) == Concat(pages) + Said(Entries(f, file, at))
  }

  lemma FirstPage(f: Format, file: Text)
    requires Sane(f)
    ensures Resumes(f, file, [], 0)
  {
  }

  lemma NextPage(f: Format, file: Text, pages: seq<Page>, at: nat, limit: nat, page: Page)
    requires Sane(f) && at <= |file| && IsPage(f, file, at, limit, page)
    requires !InnerCr(file) ==> Resumes(f, file, pages, at)
    ensures !InnerCr(file) && page.next == None ==> Concat(pages + [page]) == Said(Entries(f, file, 0))
    ensures page.next.Some? ==> at < page.next.value < |file|
    ensures !InnerCr(file) && page.next.Some? ==> Resumes(f, file, pages + [page], page.next.value)
  {
    hide IsPage, Sane, Entries, Said, Concat, InnerCr;
    ConcatAppend(pages, page);
    if page.next == None {
      LastPage(f, file, at, limit, page);
    } else {
      PageAdvances(f, file, at, limit, page);
      assert Concat(pages) + (page.messages + Said(Entries(f, file, page.next.value)))
          == Concat(pages) + page.messages + Said(Entries(f, file, page.next.value));
    }
  }

  lemma LastPage(f: Format, file: Text, at: nat, limit: nat, page: Page)
    requires Sane(f) && at <= |file| && IsPage(f, file, at, limit, page) && page.next == None
    ensures page.messages == Said(Entries(f, file, at))
  {
  }

  lemma {:induction false} ConcatAppend(pages: seq<Page>, page: Page)
    ensures Concat(pages + [page]) == Concat(pages) + page.messages
  {
    if pages == [] {
      assert pages + [page] == [page];
      assert Concat([page]) == page.messages + Concat([]);
    } else {
      assert (pages + [page])[1..] == pages[1..] + [page];
      ConcatAppend(pages[1..], page);
    }
  }

  // ---------------------------------------------------------------- cursors

  // A cursor names the transcript by its fingerprint and a position in it. The base64 around
  // both is not modelled.
  function Digit(d: nat): char
    requires d < 10
  {
    "0123456789"[d]
  }

  function Itoa(n: nat): string {
    if n < 10 then [Digit(n)] else Itoa(n / 10) + [Digit(n % 10)]
  }

  function Atoi(s: string): Option<int> {
    var signed := s != [] && (s[0] == '-' || s[0] == '+');
    var digits := if signed then s[1..] else s;
    match if digits == [] then None else Value(digits)
    case None => None
    case Some(v) =>
      var sign: int := if signed && s[0] == '-' then -1 else 1;
      var n: int := sign * v;
      if -0x8000_0000_0000_0000 <= n < 0x8000_0000_0000_0000 then Some(n) else None
  }

  datatype Decoded = Offset(offset: nat) | CursorConflict | CursorInvalid

  function EncodeCursor(fingerprint: string, offset: nat): string {
    fingerprint + ":" + Itoa(offset)
  }

  function Colon(s: string): (i: nat)
    ensures i <= |s| && (i < |s| ==> s[i] == ':') && forall j :: 0 <= j < i ==> s[j] != ':'
  {
    if s == [] || s[0] == ':' then 0 else 1 + Colon(s[1..])
  }

  function DecodeCursor(fingerprint: string, raw: string): Decoded {
    var i := Colon(raw);
    if i == |raw| || raw[..i] != fingerprint then CursorConflict
    else
      match Atoi(raw[i + 1..])
      case None => CursorInvalid
      case Some(n) => if n < 0 then CursorInvalid else Offset(n)
  }

  lemma {:induction false} ValueOfItoa(n: nat)
    ensures Value(Itoa(n)) == Some(n) && Itoa(n) != [] && IsDigit(Itoa(n)[0])
  {
    if n >= 10 {
      ValueOfItoa(n / 10);
      assert Itoa(n)[..|Itoa(n)| - 1] == Itoa(n / 10);
    } else {
      assert Itoa(n)[..0] == [];
    }
  }

  // A cursor brings its own transcript back to the position it was made for, and is
  // refused on any other transcript.
  lemma CursorRoundTrip(mine: string, fingerprint: string, offset: nat)
    requires ':' !in fingerprint && offset < 0x8000_0000_0000_0000
    ensures DecodeCursor(mine, EncodeCursor(fingerprint, offset))
         == if mine == fingerprint then Offset(offset) else CursorConflict
  {
    var raw := EncodeCursor(fingerprint, offset);
    assert raw[|fingerprint|] == ':';
    assert forall j :: 0 <= j < |fingerprint| ==> raw[j] == fingerprint[j] && fingerprint[j] in fingerprint;
    assert Colon(raw) == |fingerprint|;
    assert raw[..|fingerprint|] == fingerprint && raw[|fingerprint| + 1..] == Itoa(offset);
    ValueOfItoa(offset);
  }
}
