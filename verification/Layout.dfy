/**
  Pane geometry of a tab: rectangles of terminal cells that splits divide and removals thin
  out. A layout is judged by how many panes cover each cell.
 */
module Layout {
  import opened Basics

  datatype Rect = Rect(x: int, y: int, width: int, height: int)
  datatype Pane = Pane(id: string, focused: bool, rect: Rect)
  datatype Tab = Tab(area: Rect, focus: string, panes: seq<Pane>)
  datatype Direction = Right | Downward | Other

  const COLS := 120
  const ROWS := 40

  function Default(id: string): Tab {
    var area := Rect(0, 0, COLS, ROWS);
    Tab(area, id, [Pane(id, true, area)])
  }

  // ---------------------------------------------------------------- cells

  predicate Covers(r: Rect, x: int, y: int) {
    r.x <= x < r.x + r.width && r.y <= y < r.y + r.height
  }

  function One(b: bool): nat { if b then 1 else 0 }

  // How many panes cover a cell.
  ghost function Cover(panes: seq<Pane>, x: int, y: int): nat {
    if panes == [] then 0 else Cover(panes[..|panes| - 1], x, y) + One(Covers(panes[|panes| - 1].rect, x, y))
  }

  ghost function Size(r: Rect): int { r.width * r.height }

  ghost function Sizes(panes: seq<Pane>): int {
    if panes == [] then 0 else Sizes(panes[..|panes| - 1]) + Size(panes[|panes| - 1].rect)
  }

  ghost predicate NonEmpty(r: Rect) { r.width >= 1 && r.height >= 1 }

  ghost predicate AllNonEmpty(panes: seq<Pane>) {
    forall i :: 0 <= i < |panes| ==> NonEmpty(panes[i].rect)
  }

  // Every cell of the area is covered once, and no other cell is.
  ghost predicate Tiles(t: Tab) {
    && (forall x: int, y: int :: Cover(t.panes, x, y) == One(Covers(t.area, x, y)))
    && AllNonEmpty(t.panes) && Sizes(t.panes) == Size(t.area)
  }

  // No cell is covered twice, and none outside the area.
  ghost predicate Packed(t: Tab) {
    && (forall x: int, y: int :: Cover(t.panes, x, y) <= One(Covers(t.area, x, y)))
    && AllNonEmpty(t.panes)
  }

  ghost predicate Distinct(panes: seq<Pane>) {
    forall i, j :: 0 <= i < j < |panes| ==> panes[i].id != panes[j].id
  }

  ghost predicate Has(panes: seq<Pane>, id: string) {
    exists i :: 0 <= i < |panes| && panes[i].id == id
  }

  // The focus is on a pane that exists, or there is none.
  ghost predicate FocusOk(t: Tab) {
    if t.panes == [] then t.focus == "" else Has(t.panes, t.focus)
  }

  ghost predicate Inv(t: Tab) {
    Packed(t) && Distinct(t.panes) && FocusOk(t) && NonEmpty(t.area)
  }

  lemma {:induction false} CoverConcat(a: seq<Pane>, b: seq<Pane>, x: int, y: int)
    ensures Cover(a + b, x, y) == Cover(a, x, y) + Cover(b, x, y)
    ensures Sizes(a + b) == Sizes(a) + Sizes(b)
    decreases |b|
  {
    if b == [] {
      assert a + b == a;
    } else {
      assert (a + b)[..|a + b| - 1] == a + b[..|b| - 1];
      CoverConcat(a, b[..|b| - 1], x, y);
    }
  }

  lemma CoverSplit(panes: seq<Pane>, i: nat, x: int, y: int)
    requires i < |panes|
    ensures Cover(panes, x, y)
        == Cover(panes[..i], x, y) + One(Covers(panes[i].rect, x, y)) + Cover(panes[i + 1..], x, y)
    ensures Sizes(panes) == Sizes(panes[..i]) + Size(panes[i].rect) + Sizes(panes[i + 1..])
  {
    assert panes == panes[..i] + ([panes[i]] + panes[i + 1..]);
    CoverConcat(panes[..i], [panes[i]] + panes[i + 1..], x, y);
    CoverConcat([panes[i]], panes[i + 1..], x, y);
    assert [panes[i]][..0] == [];
  }

  // ---------------------------------------------------------------- splitting

  // Where a side is cut: at the ratio, but with at least one cell on either part.
  function Cut(side: int, ratio: real): (c: Option<int>)
    ensures c.Some? <==> side >= 2
    ensures c.Some? ==> 1 <= c.value < side
  {
    var at := (side as real * ratio).Floor;
    var low := if at < 1 then 1 else at;
    var high := if low >= side then side - 1 else low;
    if high < 1 then None else Some(high)
  }

  // The cut is within a cell of the ratio asked for.
  lemma CutIsProportional(side: int, ratio: real)
    requires side >= 2 && 0.0 < ratio < 1.0
    ensures -1.0 <= Cut(side, ratio).value as real - side as real * ratio <= 1.0
  {
    assert side as real * ratio < side as real;
  }

  function SplitRect(r: Rect, direction: Direction, ratio: real): Option<(Rect, Rect)> {
    match direction
    case Right =>
      (match Cut(r.width, ratio)
       case None => None
       case Some(left) => Some((Rect(r.x, r.y, left, r.height), Rect(r.x + left, r.y, r.width - left, r.height))))
    case Downward =>
      (match Cut(r.height, ratio)
       case None => None
       case Some(top) => Some((Rect(r.x, r.y, r.width, top), Rect(r.x, r.y + top, r.width, r.height - top))))
    case Other => None
  }

  // The parts are not empty, share no cell and make up the whole; a side of one cell is not
  // split.
  lemma SplitRectIs(r: Rect, direction: Direction, ratio: real, x: int, y: int)
    requires NonEmpty(r)
    ensures SplitRect(r, direction, ratio) == None <==>
              direction == Other || (direction == Right && r.width == 1) || (direction == Downward && r.height == 1)
    ensures SplitRect(r, direction, ratio).Some? ==>
              var (a, b) := SplitRect(r, direction, ratio).value;
              && NonEmpty(a) && NonEmpty(b) && Size(a) + Size(b) == Size(r)
              && One(Covers(a, x, y)) + One(Covers(b, x, y)) == One(Covers(r, x, y))
  {
  }

  function Ratio(ratio: real): real { if ratio <= 0.0 || ratio >= 1.0 then 0.5 else ratio }

  ghost function Index(panes: seq<Pane>, id: string): (i: nat)
    ensures i <= |panes| && (i < |panes| ==> panes[i].id == id)
    ensures forall j :: 0 <= j < i ==> panes[j].id != id
  {
    if panes == [] || panes[0].id == id then 0 else 1 + Index(panes[1..], id)
  }

  ghost function Split(t: Tab, target: string, direction: Direction, ratio: real, id: string): Tab {
    var i := Index(t.panes, target);
    if i == |t.panes| then t
    else
      match SplitRect(t.panes[i].rect, direction, Ratio(ratio))
      case None => t
      case Some(parts) =>
        t.(panes := t.panes[i := t.panes[i].(rect := parts.0)] + [Pane(id, false, parts.1)])
  }

  // Splitting changes no cell's cover.
  lemma SplitCovers(t: Tab, target: string, direction: Direction, ratio: real, id: string, x: int, y: int)
    requires AllNonEmpty(t.panes)
    ensures Cover(Split(t, target, direction, ratio, id).panes, x, y) == Cover(t.panes, x, y)
    ensures Sizes(Split(t, target, direction, ratio, id).panes) == Sizes(t.panes)
    ensures AllNonEmpty(Split(t, target, direction, ratio, id).panes)
  {
    var i := Index(t.panes, target);
    if i < |t.panes| {
      var r := t.panes[i].rect;
      SplitRectIs(r, direction, Ratio(ratio), x, y);
      match SplitRect(r, direction, Ratio(ratio))
      case None =>
      case Some(parts) =>
        var left, added := t.panes[i := t.panes[i].(rect := parts.0)], [Pane(id, false, parts.1)];
        hide SplitRect, Covers, Size;
        CoverSplit(t.panes, i, x, y);
        CoverSplit(left, i, x, y);
        assert left[..i] == t.panes[..i] && left[i + 1..] == t.panes[i + 1..];
        CoverConcat(left, added, x, y);
        assert added[..0] == [];
    }
  }

  lemma SplitIds(t: Tab, target: string, direction: Direction, ratio: real, id: string)
    requires Distinct(t.panes) && !Has(t.panes, id) && FocusOk(t)
    ensures Distinct(Split(t, target, direction, ratio, id).panes) && FocusOk(Split(t, target, direction, ratio, id))
  {
    var s := Split(t, target, direction, ratio, id);
    assert forall i :: 0 <= i < |t.panes| ==> s.panes[i].id == t.panes[i].id;
    if t.panes != [] {
      var i :| 0 <= i < |t.panes| && t.panes[i].id == t.focus;
      assert s.panes[i].id == s.focus;
    }
  }

  lemma SplitTiles(t: Tab, target: string, direction: Direction, ratio: real, id: string)
    requires Tiles(t)
    ensures Tiles(Split(t, target, direction, ratio, id))
  {
    hide Split;
    SplitCovers(t, target, direction, ratio, id, 0, 0);
    forall x: int, y: int
      ensures Cover(Split(t, target, direction, ratio, id).panes, x, y) == One(Covers(t.area, x, y))
    {
      SplitCovers(t, target, direction, ratio, id, x, y);
    }
    SplitArea(t, target, direction, ratio, id);
  }

  lemma SplitArea(t: Tab, target: string, direction: Direction, ratio: real, id: string)
    ensures Split(t, target, direction, ratio, id).area == t.area
        && Split(t, target, direction, ratio, id).focus == t.focus
  {
  }

  lemma SplitKeeps(t: Tab, target: string, direction: Direction, ratio: real, id: string)
    requires Inv(t) && !Has(t.panes, id)
    ensures Inv(Split(t, target, direction, ratio, id))
  {
    hide Split, Distinct, FocusOk, Has;
    SplitCovers(t, target, direction, ratio, id, 0, 0);
    forall x: int, y: int
      ensures Cover(Split(t, target, direction, ratio, id).panes, x, y) <= One(Covers(t.area, x, y))
    {
      SplitCovers(t, target, direction, ratio, id, x, y);
    }
    SplitArea(t, target, direction, ratio, id);
    SplitIds(t, target, direction, ratio, id);
  }

  // ---------------------------------------------------------------- removing

  ghost function Without(panes: seq<Pane>, id: string): seq<Pane> {
    if panes == [] then []
    else
      var last := panes[|panes| - 1];
      Without(panes[..|panes| - 1], id) + if last.id != id then [last] else []
  }

  ghost function Remove(t: Tab, id: string): Tab {
    var left := Without(t.panes, id);
    if left == [] then t.(panes := [], focus := "")
    else if |left| == 1 then t.(panes := [left[0].(rect := t.area, focused := true)], focus := left[0].id)
    else t.(panes := left, focus := if t.focus == id then left[0].id else t.focus)
  }

  lemma {:induction false} WithoutCovers(panes: seq<Pane>, id: string, x: int, y: int)
    ensures Cover(Without(panes, id), x, y) <= Cover(panes, x, y)
    decreases |panes|
  {
    if panes != [] {
      var before, last := panes[..|panes| - 1], panes[|panes| - 1];
      WithoutCovers(before, id, x, y);
      CoverConcat(Without(before, id), if last.id != id then [last] else [], x, y);
      assert [last][..0] == [];
    }
  }

  lemma {:induction false} WithoutIs(panes: seq<Pane>, id: string)
    ensures forall i :: 0 <= i < |Without(panes, id)| ==>
        Without(panes, id)[i] in panes && Without(panes, id)[i].id != id
    ensures forall p :: p in panes && p.id != id ==> p in Without(panes, id)
    decreases |panes|
  {
    if panes != [] {
      var before, last := panes[..|panes| - 1], panes[|panes| - 1];
      WithoutIs(before, id);
      assert forall p :: p in panes <==> p in before || p == last;
    }
  }

  lemma {:induction false} WithoutDistinct(panes: seq<Pane>, id: string)
    requires Distinct(panes)
    ensures Distinct(Without(panes, id))
    decreases |panes|
  {
    if panes != [] {
      var before, last := panes[..|panes| - 1], panes[|panes| - 1];
      WithoutDistinct(before, id);
      WithoutIs(before, id);
      var kept := Without(before, id);
      forall i | 0 <= i < |kept| ensures kept[i].id != last.id {
        assert kept[i] in before;
      }
    }
  }

  lemma RemoveKeeps(t: Tab, id: string)
    requires Inv(t)
    ensures Inv(Remove(t, id))
    ensures |Remove(t, id).panes| == 1 ==>
        Remove(t, id).panes[0].rect == t.area && Remove(t, id).focus == Remove(t, id).panes[0].id
  {
    hide Packed, Has, NonEmpty, Without;
    var left := Without(t.panes, id);
    WithoutDistinct(t.panes, id);
    if left == [] {
      EmptyIsPacked(Remove(t, id));
    } else if |left| == 1 {
      RemoveToOne(t, id);
    } else {
      WithoutNonEmpty(t, id);
      RemoveToMany(t, id);
    }
  }

  lemma EmptyIsPacked(t: Tab)
    requires t.panes == []
    ensures Packed(t)
  {
  }

  lemma WithoutNonEmpty(t: Tab, id: string)
    requires Packed(t)
    ensures AllNonEmpty(Without(t.panes, id))
  {
    WithoutIs(t.panes, id);
    var left := Without(t.panes, id);
    forall i | 0 <= i < |left| ensures NonEmpty(left[i].rect) {
      assert left[i] in t.panes;
    }
  }

  lemma RemoveToOne(t: Tab, id: string)
    requires NonEmpty(t.area) && |Without(t.panes, id)| == 1
    ensures Packed(Remove(t, id)) && FocusOk(Remove(t, id))
  {
    var one := Remove(t, id).panes;
    assert one[..0] == [];
    forall x: int, y: int ensures Cover(one, x, y) <= One(Covers(t.area, x, y)) {
    }
    assert one[0].id == Remove(t, id).focus;
  }

  lemma RemoveToMany(t: Tab, id: string)
    requires Inv(t) && |Without(t.panes, id)| > 1 && AllNonEmpty(Without(t.panes, id))
    ensures Packed(Remove(t, id)) && FocusOk(Remove(t, id))
  {
    var left := Without(t.panes, id);
    forall x: int, y: int ensures Cover(left, x, y) <= One(Covers(t.area, x, y)) {
      WithoutCovers(t.panes, id, x, y);
    }
    WithoutIs(t.panes, id);
    if t.focus == id {
      assert left[0].id == Remove(t, id).focus;
    } else {
      var i :| 0 <= i < |t.panes| && t.panes[i].id == t.focus;
      assert t.panes[i] in left;
      var j :| 0 <= j < |left| && left[j] == t.panes[i];
      assert left[j].id == t.focus;
    }
  }

  // ---------------------------------------------------------------- runs

  datatype Event = EvSplit(target: string, direction: Direction, ratio: real, id: string) | EvRemove(id: string)

  ghost function Step(t: Tab, e: Event): Tab {
    match e
    case EvSplit(target, direction, ratio, id) => Split(t, target, direction, ratio, id)
    case EvRemove(id) => Remove(t, id)
  }

  // New panes have new ids.
  ghost predicate Fair(t: Tab, e: Event) { e.EvSplit? ==> !Has(t.panes, e.id) }

  ghost function Run(t: Tab, events: seq<Event>): Tab
    decreases |events|
  {
    if events == [] then t else Run(Step(t, events[0]), events[1..])
  }

  ghost predicate FairRun(t: Tab, events: seq<Event>)
    decreases |events|
  {
    events == [] || (Fair(t, events[0]) && FairRun(Step(t, events[0]), events[1..]))
  }

  lemma DefaultIs(id: string)
    ensures Tiles(Default(id)) && Inv(Default(id))
  {
    var panes := Default(id).panes;
    assert panes[..0] == [];
    forall x: int, y: int ensures Cover(panes, x, y) == One(Covers(Default(id).area, x, y)) {
    }
    assert Sizes(panes) == Sizes(panes[..0]) + Size(panes[0].rect);
    assert panes[0].id == id;
  }

  // Splits alone keep the area tiled, to the cell.
  lemma {:induction false} SplitsTile(t: Tab, events: seq<Event>)
    requires Tiles(t) && forall i :: 0 <= i < |events| ==> events[i].EvSplit?
    ensures Tiles(Run(t, events)) && Run(t, events).area == t.area
    decreases |events|
  {
    hide Tiles, Split;
    if events != [] {
      var e := events[0];
      SplitTiles(t, e.target, e.direction, e.ratio, e.id);
      SplitArea(t, e.target, e.direction, e.ratio, e.id);
      SplitsTile(Step(t, e), events[1..]);
    }
  }

  // With removals the panes still do not overlap or leave the area, and the focus is on one
  // of them.
  lemma {:induction false} RunKeeps(t: Tab, events: seq<Event>)
    requires Inv(t) && FairRun(t, events)
    ensures Inv(Run(t, events))
    decreases |events|
  {
    hide Inv, Split, Remove, Has;
    if events != [] {
      match events[0] {
        case EvSplit(target, direction, ratio, id) => SplitKeeps(t, target, direction, ratio, id);
        case EvRemove(id) => RemoveKeeps(t, id);
      }
      RunKeeps(Step(t, events[0]), events[1..]);
    }
  }

  // The focused flags follow the focus through a removal, unless the pane removed had the
  // focus and left more than one behind.
  ghost predicate FlagsAgree(t: Tab) {
    forall i :: 0 <= i < |t.panes| ==> (t.panes[i].focused <==> t.panes[i].id == t.focus)
  }

  lemma FlagsFollowExactly(t: Tab, id: string)
    requires Inv(t) && FlagsAgree(t)
    ensures FlagsAgree(Remove(t, id)) <==> !(t.focus == id && |Without(t.panes, id)| >= 2)
  {
    hide Without, Inv;
    WithoutIs(t.panes, id);
    var left := Without(t.panes, id);
    forall i | 0 <= i < |left| ensures left[i].focused <==> left[i].id == t.focus {
      assert left[i] in t.panes;
    }
    if t.focus == id && |left| >= 2 {
      assert left[0].id != id && !left[0].focused && Remove(t, id).panes[0] == left[0]
          && Remove(t, id).focus == left[0].id;
    }
  }

  // A split gives the new pane no flag, and it is not in focus.
  lemma SplitFlags(t: Tab, target: string, direction: Direction, ratio: real, id: string)
    requires FocusOk(t) && FlagsAgree(t) && !Has(t.panes, id)
    ensures FlagsAgree(Split(t, target, direction, ratio, id))
  {
    var r := Split(t, target, direction, ratio, id);
    if r != t {
      assert id != t.focus;
      assert r.focus == t.focus;
      forall i | 0 <= i < |r.panes| ensures r.panes[i].focused <==> r.panes[i].id == r.focus {
        if i < |t.panes| { assert r.panes[i].id == t.panes[i].id && r.panes[i].focused == t.panes[i].focused; }
      }
    }
  }

  // A removal that takes the focus from several panes left behind.
  ghost predicate Unflags(t: Tab, e: Event) {
    e.EvRemove? && t.focus == e.id && |Without(t.panes, e.id)| >= 2
  }

  ghost predicate FlagRun(t: Tab, events: seq<Event>)
    decreases |events|
  {
    events == [] || (!Unflags(t, events[0]) && FlagRun(Step(t, events[0]), events[1..]))
  }

  lemma {:induction false} RunFlags(t: Tab, events: seq<Event>)
    requires Inv(t) && FlagsAgree(t) && FairRun(t, events) && FlagRun(t, events)
    ensures FlagsAgree(Run(t, events))
    decreases |events|
  {
    hide FlagsAgree, Split, Remove, Has, Without, Tiles, Packed, FocusOk;
    if events != [] {
      match events[0] {
        case EvSplit(target, direction, ratio, id) =>
          SplitFlags(t, target, direction, ratio, id);
          SplitKeeps(t, target, direction, ratio, id);
        case EvRemove(id) =>
          FlagsFollowExactly(t, id);
          RemoveKeeps(t, id);
      }
      RunFlags(Step(t, events[0]), events[1..]);
    }
  }

  // A tab after two splits of its first pane, which keeps the focus.
  function Thirds(a: string, b: string, c: string): Tab {
    var panes := [Pane(a, true, Rect(0, 0, 30, 40)), Pane(b, false, Rect(60, 0, 60, 40)),
      Pane(c, false, Rect(30, 0, 30, 40))];
    Tab(Rect(0, 0, COLS, ROWS), a, panes)
  }

  lemma ThirdsIs(a: string, b: string, c: string)
    requires a != b && b != c && a != c
    ensures var events := [EvSplit(a, Right, 0.5, b), EvSplit(a, Right, 0.5, c)];
      FairRun(Default(a), events) && Run(Default(a), events) == Thirds(a, b, c)
  {
    var t, half := Default(a), Rect(60, 0, 60, 40);
    var one := Split(t, a, Right, 0.5, b);
    assert one.panes == [Pane(a, true, Rect(0, 0, 60, 40)), Pane(b, false, half)];
    assert Split(one, a, Right, 0.5, c).panes == Thirds(a, b, c).panes;
    var events := [EvSplit(a, Right, 0.5, b), EvSplit(a, Right, 0.5, c)];
    hide Split;
    assert events[1..] == [events[1]] && events[1..][1..] == [];
    assert Run(one, events[1..]) == Run(Thirds(a, b, c), []);
    assert FairRun(one, events[1..]) by { assert Fair(one, events[1]) && FairRun(Thirds(a, b, c), []); }
  }

  // Two splits, then the removal of the first pane, which has the focus: of the two panes
  // left, neither is flagged.
  lemma FlagsCanBreak(a: string, b: string, c: string)
    requires a != b && b != c && a != c
    ensures var events := [EvSplit(a, Right, 0.5, b), EvSplit(a, Right, 0.5, c)];
      && FairRun(Default(a), events) && FlagsAgree(Run(Default(a), events))
      && !FlagsAgree(Remove(Run(Default(a), events), a))
  {
    hide Run, FairRun, Fair, Step;
    ThirdsIs(a, b, c);
    var panes := Thirds(a, b, c).panes;
    assert panes[..2][..1] == [panes[0]] && panes[..1][..0] == [];
    assert Without(panes[..2][..1], a) == [];
    assert Without(panes[..2], a) == [panes[1]];
    assert Without(panes, a) == [panes[1], panes[2]];
  }

  // ---------------------------------------------------------------- as the source runs them

  // The target's rectangle is changed in place; the new pane is appended.
  method SplitPane(panes: array<Pane>, area: Rect, focus: string, target: string, direction: Direction, ratio: real,
                   id: string)
    returns (all: seq<Pane>)
    modifies panes
    ensures Tab(area, focus, all) == Split(Tab(area, focus, old(panes[..])), target, direction, ratio, id)
    ensures all[..panes.Length] == panes[..]
  {
    var share := if ratio <= 0.0 || ratio >= 1.0 then 0.5 else ratio;
    ghost var was := panes[..];
    var i := 0;
    while i < panes.Length
      invariant 0 <= i <= panes.Length && panes[..] == was
      invariant i <= Index(was, target)
    {
      if panes[i].id == target {
        assert Index(was, target) == i;
        var parts := SplitRect(panes[i].rect, direction, share);
        if parts == None { return panes[..]; }
        panes[i] := panes[i].(rect := parts.value.0);
        assert panes[..] == was[i := was[i].(rect := parts.value.0)];
        return panes[..] + [Pane(id, false, parts.value.1)];
      }
      i := i + 1;
    }
    all := panes[..];
  }

  method RemovePane(t: Tab, id: string) returns (r: Tab)
    ensures r == Remove(t, id)
  {
    var left := [];
    var i := 0;
    while i < |t.panes|
      invariant 0 <= i <= |t.panes| && left == Without(t.panes[..i], id)
    {
      assert t.panes[..i + 1][..i] == t.panes[..i];
      if t.panes[i].id != id { left := left + [t.panes[i]]; }
      i := i + 1;
    }
    assert t.panes[..i] == t.panes;
    if |left| == 0 { return t.(panes := [], focus := ""); }
    var focus := t.focus;
    if |left| == 1 {
      left := [left[0].(rect := t.area, focused := true)];
      focus := left[0].id;
    } else if t.focus == id {
      focus := left[0].id;
    }
    r := t.(panes := left, focus := focus);
  }
}
