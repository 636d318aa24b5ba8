/**
  Pages read at each other's cursors, for every file: when they say exactly what one read of
  the file says, what they say otherwise, and a transcript on which they differ.
 */
module PageChains {
  import opened Basics
  import opened Clipping
  import opened Pages

  // ---------------------------------------------------------------- nothing is lost

  // The second has everything of the first in the same order, and maybe more.
  ghost predicate Within(a: seq<Message>, b: seq<Message>)
    decreases |b|
  {
    a == [] || (b != [] && if a[0] == b[0] then Within(a[1..], b[1..]) else Within(a, b[1..]))
  }

  lemma {:induction false} WithinSkip(a: seq<Message>, m: Message, b: seq<Message>)
    requires Within(a, b)
    ensures Within(a, [m] + b)
    decreases |b|, 1
  {
    assert ([m] + b)[1..] == b;
    if a != [] && a[0] == m { WithinTail(a, b); }
  }

  lemma {:induction false} WithinTail(a: seq<Message>, b: seq<Message>)
    requires a != [] && Within(a, b)
    ensures Within(a[1..], b)
    decreases |b|, 0
  {
    if a[0] != b[0] { WithinTail(a, b[1..]); }
    WithinSkip(a[1..], b[0], b[1..]);
    assert b == [b[0]] + b[1..];
  }

  lemma {:induction false} WithinSuffix(a: seq<Message>, k: nat, b: seq<Message>)
    requires k <= |a| && Within(a, b)
    ensures Within(a[k..], b)
    decreases k
  {
    if k == 0 {
      assert a[0..] == a;
    } else {
      WithinTail(a, b);
      WithinSuffix(a[1..], k - 1, b);
      assert a[1..][k - 1..] == a[k..];
    }
  }

  lemma {:induction false} WithinAfter(p: seq<Message>, a: seq<Message>, b: seq<Message>)
    requires Within(a, b)
    ensures Within(p + a, p + b)
    decreases |p|
  {
    if p == [] {
      assert p + a == a && p + b == b;
    } else {
      WithinAfter(p[1..], a, b);
      assert (p + a)[1..] == p[1..] + a && (p + b)[1..] == p[1..] + b;
    }
  }

  // A read that starts before a line start comes by it.
  lemma {:induction false} ComesBy(f: Format, file: Text, before: nat, at: nat) returns (k: nat)
    requires Sane(f) && before <= at <= |file| && AtLine(file, before, at)
    ensures k <= |Entries(f, file, before)| && Entries(f, file, before)[k..] == Entries(f, file, at)
    decreases at - before
  {
    if before == at {
      k := 0;
    } else {
      var next := NextLine(file, before);
      var j := ComesBy(f, file, next, at);
      match f.parse(Token(file, before)) {
        case None => k := j;
        case Some(m) =>
          k := j + 1;
          assert Entries(f, file, before)[j + 1..] == Entries(f, file, next)[j..];
      }
    }
  }

  lemma {:induction false} EntryAtLine(f: Format, file: Text, at: nat, n: nat)
    requires Sane(f) && at <= |file| && n < |Entries(f, file, at)|
    ensures AtLine(file, at, Entries(f, file, at)[n].start)
    decreases |file| - at
  {
    var next := NextLine(file, at);
    match f.parse(Token(file, at)) {
      case None => EntryAtLine(f, file, next, n);
      case Some(m) => if n > 0 { EntryAtLine(f, file, next, n - 1); }
    }
  }

  lemma PageIs(f: Format, file: Text, at: nat, limit: nat, page: Page)
    requires Sane(f) && at <= |file| && IsPage(f, file, at, limit, page) && page.next.Some?
    ensures var all, n := Entries(f, file, at), |page.messages|;
      && n < |all| && page.messages == Said(all)[..n]
      && at <= all[n].start <= |file| && page.next == Some(Counted(file, at, all[n].start))
  {
    hide Entries, Counted;
  }

  lemma SaidFrom(all: seq<Entry>, n: nat, rest: seq<Entry>, k: nat)
    requires n <= |all| && k <= |rest| && rest[k..] == all[n..]
    ensures Said(all) == Said(all)[..n] + Said(rest)[k..]
  {
    forall i | n <= i < |all| ensures rest[k + i - n] == all[i] {
      assert rest[k..][i - n] == all[n..][i - n];
    }
    assert |rest| - k == |all| - n;
  }

  // What a page leaves out is said from its cursor on.
  lemma CursorCovers(f: Format, file: Text, at: nat, limit: nat, page: Page) returns (k: nat)
    requires Sane(f) && at <= |file| && IsPage(f, file, at, limit, page) && page.next.Some?
    ensures at < page.next.value < |file| && k <= |Said(Entries(f, file, page.next.value))|
    ensures Said(Entries(f, file, at)) == page.messages + Said(Entries(f, file, page.next.value))[k..]
  {
    hide Entries, IsPage, Sane, Crlf, InnerCr;
    var all, n := Entries(f, file, at), |page.messages|;
    PageIs(f, file, at, limit, page);
    EntryStarts(f, file, at, n);
    EntryAtLine(f, file, at, n);
    PageAdvances(f, file, at, limit, page);
    k := ComesBy(f, file, page.next.value, all[n].start);
    SaidFrom(all, n, Entries(f, file, page.next.value), k);
  }

  // Whatever the file and the format, every entry of the file is said, in order.
  lemma {:induction false} ChainLosesNothing(f: Format, file: Text, at: nat, pages: seq<Page>, limits: seq<nat>)
    requires Sane(f) && Chain(f, file, at, pages, limits)
    ensures Within(Said(Entries(f, file, at)), Concat(pages))
    decreases |pages|
  {
    hide Entries, IsPage, Said;
    match pages[0].next {
      case None =>
        LastPage(f, file, at, limits[0], pages[0]);
        assert Concat(pages) == pages[0].messages + [] && pages[0].messages + [] == pages[0].messages;
        WithinAfter(pages[0].messages, [], []);
      case Some(next) =>
        var k := CursorCovers(f, file, at, limits[0], pages[0]);
        ChainLosesNothing(f, file, next, pages[1..], limits[1..]);
        WithinSuffix(Said(Entries(f, file, next)), k, Concat(pages[1..]));
        WithinAfter(pages[0].messages, Said(Entries(f, file, next))[k..], Concat(pages[1..]));
    }
  }

  // ---------------------------------------------------------------- exactly when nothing is repeated

  // A format that takes every line, and pages of one message.
  function Every(): (f: Format)
    ensures Sane(f) && forall line :: f.parse(line).Some?
  {
    Format((line: Text) => Some(Message([], [])))
  }

  // How many messages come from pages of one, read at each other's cursors.
  function Reads(file: Text, at: nat): nat
    requires at <= |file|
    decreases |file| - at
  {
    if at == |file| then 0
    else if NextLine(file, at) == |file| then 1
    else 1 + Reads(file, at + |Token(file, at)| + 1)
  }

  ghost predicate CrFrom(file: Text, at: nat) {
    exists i :: at < i && i + 1 < |file| && file[i] == LF && file[i - 1] == CR
  }

  // Every line is an entry.
  lemma EveryEntry(file: Text, at: nat)
    requires at < |file|
    ensures var m, rest := Every().parse(Token(file, at)).value, Entries(Every(), file, NextLine(file, at));
      && |m.role| <= 9 && Entries(Every(), file, at) == [Entry(at, Clipped(m), IsClipped(m))] + rest
      && (NextLine(file, at) == |file| ==> rest == [])
  {
    hide Clipped, IsClipped;
  }

  ghost predicate Drops(file: Text, at: nat)
    requires at <= |file|
  {
    LineEnd(file, at) > at && file[LineEnd(file, at) - 1] == CR
  }

  lemma ReadsOnce(file: Text, at: nat)
    requires at < |file| && NextLine(file, at) < |file|
    ensures at + |Token(file, at)| + 1 == NextLine(file, at) - (if Drops(file, at) then 1 else 0)
    ensures Reads(file, at) == 1 + Reads(file, at + |Token(file, at)| + 1)
  {
    hide LineEnd;
  }

  lemma AtFeed(file: Text, e: nat)
    requires e < |file| && file[e] == LF
    ensures LineEnd(file, e) == e && NextLine(file, e) == e + 1 && !Drops(file, e)
  {
  }

  // Behind a dropped carriage return the next page starts at the line feed, and reads an
  // empty line there.
  lemma ReadsNext(file: Text, at: nat)
    requires at < |file| && NextLine(file, at) < |file|
    ensures Reads(file, at) == (if Drops(file, at) then 2 else 1) + Reads(file, NextLine(file, at))
  {
    hide Reads, LineEnd, Token, Drops;
    ReadsOnce(file, at);
    if Drops(file, at) {
      AtFeed(file, LineEnd(file, at));
      ReadsOnce(file, LineEnd(file, at));
    }
  }

  lemma CrNext(file: Text, at: nat)
    requires at < |file| && CrFrom(file, at) && !Drops(file, at)
    ensures NextLine(file, at) < |file| && CrFrom(file, NextLine(file, at))
  {
    var i :| at < i && i + 1 < |file| && file[i] == LF && file[i - 1] == CR;
    assert LineEnd(file, at) < i - 1;
  }

  lemma {:induction false} ReadsMore(file: Text, at: nat)
    requires at <= |file|
    ensures Reads(file, at) >= |Entries(Every(), file, at)|
    ensures CrFrom(file, at) ==> Reads(file, at) > |Entries(Every(), file, at)|
    decreases |file| - at
  {
    if at < |file| {
      hide Clipped, IsClipped, Entries, CrFrom, Drops;
      EveryEntry(file, at);
      if CrFrom(file, at) && !Drops(file, at) { CrNext(file, at); }
      if NextLine(file, at) < |file| {
        ReadsNext(file, at);
        ReadsMore(file, NextLine(file, at));
      } else {
        CrLast(file, at);
      }
    }
  }

  lemma CrLast(file: Text, at: nat)
    requires at < |file| && NextLine(file, at) == |file|
    ensures !CrFrom(file, at)
  {
  }

  ghost function Single(file: Text, at: nat): Page
    requires at < |file|
  {
    var all := Entries(Every(), file, at);
    Page([all[0].message],
         if NextLine(file, at) == |file| then None else Some(at + |Token(file, at)| + 1),
         all[0].clipped || (|all| > 1 && all[1].clipped))
  }

  lemma SingleIsPage(file: Text, at: nat)
    requires at < |file|
    ensures IsPage(Every(), file, at, 1, Single(file, at))
  {
    hide Entries, Clipped, IsClipped, InnerCr, MessageSize;
    var m, next := Every().parse(Token(file, at)).value, NextLine(file, at);
    EveryEntry(file, at);
    ClippedFits(m);
    BytesMore([], Clipped(m));
    assert [] + [Clipped(m)] == [Clipped(m)];
    if next < |file| {
      CrlfLine(file, at, at);
      EveryEntry(file, next);
    }
  }

  ghost function Singles(file: Text, at: nat): seq<Page>
    requires at < |file|
    decreases |file| - at
  {
    if NextLine(file, at) == |file| then [Single(file, at)]
    else [Single(file, at)] + Singles(file, at + |Token(file, at)| + 1)
  }

  lemma {:induction false} SinglesChain(file: Text, at: nat)
    requires at < |file|
    ensures Chain(Every(), file, at, Singles(file, at), seq(|Singles(file, at)|, _ => 1))
    ensures |Concat(Singles(file, at))| == Reads(file, at)
    decreases |file| - at
  {
    hide IsPage, Entries;
    var pages := Singles(file, at);
    var limits := seq(|pages|, _ => 1);
    SingleIsPage(file, at);
    if NextLine(file, at) == |file| {
      assert Concat(pages) == pages[0].messages + [];
    } else {
      var next := at + |Token(file, at)| + 1;
      SinglesChain(file, next);
      assert pages[1..] == Singles(file, next);
      assert limits[1..] == seq(|pages[1..]|, _ => 1);
    }
  }

  ghost predicate Whole(file: Text) {
    forall f, pages, limits :: Sane(f) && Chain(f, file, 0, pages, limits) ==>
      Concat(pages) == Said(Entries(f, file, 0))
  }

  // The pages say what the file says, whatever the format and the limits, if and only if no
  // line but the last ends in a carriage return and a line feed.
  lemma WholeExactly(file: Text)
    ensures Whole(file) <==> !InnerCr(file)
  {
    if InnerCr(file) {
      assert CrFrom(file, 0);
      ReadsMore(file, 0);
      SinglesChain(file, 0);
      var pages := Singles(file, 0);
      assert |Concat(pages)| > |Said(Entries(Every(), file, 0))|;
    } else {
      forall f, pages, limits | Sane(f) && Chain(f, file, 0, pages, limits)
        ensures Concat(pages) == Said(Entries(f, file, 0))
      {
        ChainIsWhole(f, file, 0, pages, limits);
      }
    }
  }

  // ---------------------------------------------------------------- a transcript that repeats a message

  const MAX_LIMIT := 200

  function Copies(w: Text, k: nat): Text {
    if k == 0 then [] else w + [CR, LF] + Copies(w, k - 1)
  }

  lemma {:induction false} CopiesSplit(w: Text, j: nat, k: nat)
    requires j <= k
    ensures Copies(w, k) == Copies(w, j) + Copies(w, k - j) && |Copies(w, j)| == j * (|w| + 2)
    decreases j
  {
    if j == 0 {
      assert Copies(w, 0) + Copies(w, k) == Copies(w, k);
    } else {
      CopiesSplit(w, j - 1, k - 1);
      assert w + [CR, LF] + (Copies(w, j - 1) + Copies(w, k - j)) == w + [CR, LF] + Copies(w, j - 1) + Copies(w, k - j);
      assert |Copies(w, j)| == |w| + 2 + (j - 1) * (|w| + 2);
    }
  }

  lemma LineAt(front: Text, w: Text, rest: Text)
    requires CR !in w && LF !in w
    ensures var file, at := front + (w + [CR, LF] + rest), |front|;
      LineEnd(file, at) == at + |w| + 1 && Token(file, at) == w && NextLine(file, at) == at + |w| + 2
  {
    hide LineEnd;
    var file, at := front + (w + [CR, LF] + rest), |front|;
    assert forall i :: at <= i < at + |w| ==> file[i] == w[i - at] && w[i - at] in w;
    assert file[at + |w|] == CR && file[at + |w| + 1] == LF;
    assert LineEnd(file, at) == at + |w| + 1;
    assert file[at..at + |w|] == w && file[at..at + |w| + 1] == w + [CR];
  }

  // The lines of the file of copies: where each is read, and how far the count has fallen behind.
  lemma CopyAt(w: Text, j: nat, k: nat)
    requires CR !in w && LF !in w && j < k
    ensures var file, at := Copies(w, k), j * (|w| + 2);
      && at < |file| && LineEnd(file, at) == at + |w| + 1
      && Token(file, at) == w && NextLine(file, at) == (j + 1) * (|w| + 2)
  {
    CopiesSplit(w, j, k);
    hide LineEnd;
    assert Copies(w, k - j) == w + [CR, LF] + Copies(w, k - j - 1);
    LineAt(Copies(w, j), w, Copies(w, k - j - 1));
    assert (j + 1) * (|w| + 2) == j * (|w| + 2) + |w| + 2;
  }

  lemma {:induction false} CopiesCount(w: Text, j: nat, k: nat)
    requires CR !in w && LF !in w && j <= k
    ensures j * (|w| + 2) <= |Copies(w, k)| && AtLine(Copies(w, k), 0, j * (|w| + 2))
    ensures Crlf(Copies(w, k), 0, j * (|w| + 2)) == j
    decreases j
  {
    hide Copies, LineEnd, Token, Crlf;
    if j > 0 {
      CopyAt(w, j - 1, k);
      CopiesCount(w, j - 1, k);
      CrlfLine(Copies(w, k), 0, (j - 1) * (|w| + 2));
    } else {
      CopiesSplit(w, 0, k);
      CrlfSmall(Copies(w, k), 0, 0);
    }
  }

  function Same(m: Message, n: nat): seq<Message> { seq(n, _ => m) }

  lemma {:induction false} CopiesSay(f: Format, w: Text, j: nat, k: nat)
    requires Sane(f) && CR !in w && LF !in w && j <= k && f.parse(w).Some?
    ensures |f.parse(w).value.role| <= 9 && j * (|w| + 2) <= |Copies(w, k)|
    ensures var all, m := Entries(f, Copies(w, k), j * (|w| + 2)), f.parse(w).value;
      && |all| == k - j
      && forall i :: 0 <= i < k - j ==> all[i] == Entry((j + i) * (|w| + 2), Clipped(m), IsClipped(m))
    decreases k - j
  {
    hide Copies, LineEnd, Token, NextLine, Clipped, IsClipped;
    CopiesSplit(w, j, k);
    if j < k {
      CopyAt(w, j, k);
      CopiesSay(f, w, j + 1, k);
    } else {
      CopiesSplit(w, k, k);
      assert Entries(f, Copies(w, k), k * (|w| + 2)) == [];
    }
  }

  lemma {:induction false} BytesOfSame(m: Message, n: nat)
    ensures Pages.Bytes(Same(m, n)) == n * MessageSize(m)
    decreases n
  {
    hide MessageSize;
    if n > 0 {
      BytesOfSame(m, n - 1);
      assert Same(m, n)[..n - 1] == Same(m, n - 1);
      assert n * MessageSize(m) == (n - 1) * MessageSize(m) + MessageSize(m);
    }
  }

  // A line the format takes, without the two characters, and short enough that a page can
  // hold as many of it as it is long.
  ghost predicate Repeats(f: Format, w: Text) {
    && Sane(f) && CR !in w && LF !in w && |w| + 2 <= MAX_LIMIT && f.parse(w).Some?
    && (|w| + 2) * MessageSize(Clipped(f.parse(w).value)) <= MAX_PAGE_ITEMS_BYTES
  }

  ghost function FirstOf(f: Format, w: Text): Page
    requires Repeats(f, w)
  {
    var m, n := f.parse(w).value, |w| + 2;
    Page(Same(Clipped(m), n), Some((n - 1) * n), IsClipped(m))
  }

  ghost function LastOf(f: Format, w: Text): Page
    requires Repeats(f, w)
  {
    var m := f.parse(w).value;
    Page(Same(Clipped(m), 2), None, IsClipped(m))
  }

  lemma FirstIsPage(f: Format, w: Text)
    requires Repeats(f, w)
    ensures IsPage(f, Copies(w, |w| + 3), 0, |w| + 2, FirstOf(f, w))
  {
    hide Entries, Clipped, IsClipped, MessageSize, Copies, Crlf;
    var n, m := |w| + 2, f.parse(w).value;
    CopiesSay(f, w, 0, n + 1);
    assert 0 * n == 0;
    CopiesCount(w, n, n + 1);
    BytesOfSame(Clipped(m), n);
    var all := Entries(f, Copies(w, n + 1), 0);
    assert all[n].start == n * n && all[0].clipped == IsClipped(m);
    assert (n - 1) * n == n * n - n;
  }

  lemma LastIsPage(f: Format, w: Text)
    requires Repeats(f, w)
    ensures (|w| + 1) * (|w| + 2) <= |Copies(w, |w| + 3)|
    ensures IsPage(f, Copies(w, |w| + 3), (|w| + 1) * (|w| + 2), |w| + 2, LastOf(f, w))
  {
    hide Entries, Clipped, IsClipped, MessageSize, Copies;
    var n, m := |w| + 2, f.parse(w).value;
    CopiesSay(f, w, n - 1, n + 1);
    BytesOfSame(Clipped(m), 2);
    assert 2 * MessageSize(Clipped(m)) <= n * MessageSize(Clipped(m));
    assert Entries(f, Copies(w, n + 1), (n - 1) * n)[0].clipped == IsClipped(m);
  }

  // As many copies of a line as it is long and a few more, each with a carriage return and a
  // line feed: the first page of as many as it is long falls behind by one whole line, and
  // the second says that line again.
  lemma CarriageReturnsRepeat(f: Format, w: Text)
    requires Repeats(f, w)
    ensures var file, limit, pages := Copies(w, |w| + 3), |w| + 2, [FirstOf(f, w), LastOf(f, w)];
      && Chain(f, file, 0, pages, [limit, limit])
      && Concat(pages) == Said(Entries(f, file, 0)) + [Clipped(f.parse(w).value)]
  {
    hide IsPage, Clipped, IsClipped, Copies, MessageSize, Entries;
    FirstIsPage(f, w);
    LastIsPage(f, w);
    var m, n, one, two := f.parse(w).value, |w| + 2, FirstOf(f, w), LastOf(f, w);
    assert (n - 1) * n > 0;
    assert [one, two][1..] == [two] && [n, n][1..] == [n];
    assert Concat([two]) == two.messages + Concat([]) == two.messages;
    CopiesSay(f, w, 0, n + 1);
    assert 0 * n == 0;
    assert Said(Entries(f, Copies(w, n + 1), 0)) == Same(Clipped(m), n + 1);
    assert Same(Clipped(m), n) + Same(Clipped(m), 2) == Same(Clipped(m), n + 1) + [Clipped(m)];
  }

  // {"type":"response_item","payload":{"type":"function_call","name":"a"}}
  function Opens(): (w: Text)
    ensures |w| == 9 && CR !in w && LF !in w
  {
    [0x7B, 0x22, 0x74, 0x79, 0x70, 0x65, 0x22, 0x3A, 0x22]
  }

  function Item(): (w: Text)
    ensures |w| == 13 && CR !in w && LF !in w
  {
    [0x72, 0x65, 0x73, 0x70, 0x6F, 0x6E, 0x73, 0x65, 0x5F, 0x69, 0x74, 0x65, 0x6D]
  }

  function Loads(): (w: Text)
    ensures |w| == 12 && CR !in w && LF !in w
  {
    [0x22, 0x2C, 0x22, 0x70, 0x61, 0x79, 0x6C, 0x6F, 0x61, 0x64, 0x22, 0x3A]
  }

  function Call(): (w: Text)
    ensures |w| == 13 && CR !in w && LF !in w
  {
    [0x66, 0x75, 0x6E, 0x63, 0x74, 0x69, 0x6F, 0x6E, 0x5F, 0x63, 0x61, 0x6C, 0x6C]
  }

  function Names(): (w: Text)
    ensures |w| == 14 && CR !in w && LF !in w
  {
    [0x22, 0x2C, 0x22, 0x6E, 0x61, 0x6D, 0x65, 0x22, 0x3A, 0x22, 0x61, 0x22, 0x7D, 0x7D]
  }

  function CodexCall(): (w: Text)
    ensures |w| == 70 && CR !in w && LF !in w
  {
    Opens() + Item() + Loads() + Opens() + Call() + Names()
  }

  // What the daemon makes of it: the words for a tool, a middle dot and the name.
  const CODEX_SAYS := Message([0x61, 0x73, 0x73, 0x69, 0x73, 0x74, 0x61, 0x6E, 0x74],
                              [0xE5, 0xB7, 0xA5, 0xE5, 0x85, 0xB7, 0x20, 0xC2, 0xB7, 0x20, 0x61])

  lemma ShortIsKept(m: Message)
    requires |m.role| <= 9 && |m.text| <= 100
    ensures Clipped(m) == m && MessageSize(m) <= 675
  {
    MessageBound(m);
    assert Clip(m.text, MAX_MESSAGE_BYTES) == m.text;
  }

  lemma CodexCallRepeats(f: Format)
    requires Sane(f) && f.parse(CodexCall()) == Some(CODEX_SAYS)
    ensures Repeats(f, CodexCall())
  {
    hide MessageSize, Clipped, CodexCall;
    ShortIsKept(CODEX_SAYS);
  }
}
