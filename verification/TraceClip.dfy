/**
  Clipping a trace event: the largest field is halved until the encoded event fits. Fields of
  five or six bytes can be their own half with the ellipsis, so the loop may run forever;
  this says exactly when.
 */
module TraceClip {
  import opened Basics
  import opened Clipping

  datatype Event = Event(typ: Text, text: Text, name: Text, input: Text, output: Text)
  datatype Field = TextField | InputField | OutputField

  const MAX_MESSAGE_BYTES := 65536

  // ---------------------------------------------------------------- the encoded size

  // A field takes its label and its encoded text, and is left out when empty.
  function Part(key: nat, s: Text): nat { if s == [] then 0 else key + EncodedLen(s) }

  function Base(ev: Event): nat { 9 + EncodedLen(ev.typ) + Part(8, ev.name) }

  function EventSize(ev: Event): nat {
    Base(ev) + Part(8, ev.text) + Part(9, ev.input) + Part(10, ev.output)
  }

  function Get(ev: Event, f: Field): Text {
    match f
    case TextField => ev.text
    case InputField => ev.input
    case OutputField => ev.output
  }

  function Put(ev: Event, f: Field, s: Text): Event {
    match f
    case TextField => ev.(text := s)
    case InputField => ev.(input := s)
    case OutputField => ev.(output := s)
  }

  // ---------------------------------------------------------------- one round

  function Weight(s: Text): nat { if s == [] then 0 else EncodedLen(s) }

  // The first field of the greatest encoded length, if any field is left.
  ghost function Largest(ev: Event): Option<Field> {
    var t, i, o := Weight(ev.text), Weight(ev.input), Weight(ev.output);
    if t == 0 && i == 0 && o == 0 then None
    else if t >= i && t >= o then Some(TextField)
    else if i >= o then Some(InputField)
    else Some(OutputField)
  }

  lemma LargestIs(ev: Event)
    ensures Largest(ev) == None <==> ev.text == [] && ev.input == [] && ev.output == []
    ensures Largest(ev).Some? ==> Get(ev, Largest(ev).value) != []
    ensures Largest(ev).Some? ==> forall f :: Weight(Get(ev, f)) <= Weight(Get(ev, Largest(ev).value))
  {
    assert forall s: Text :: s != [] ==> Weight(s) >= 2;
  }

  const FIELDS := [TextField, InputField, OutputField]

  // The field chosen among the first k.
  ghost function LargestOf(ev: Event, k: nat): Option<Field>
    requires k <= 3
  {
    if k == 0 then None
    else
      var best, f := LargestOf(ev, k - 1), FIELDS[k - 1];
      if Weight(Get(ev, f)) > (if best == None then 0 else Weight(Get(ev, best.value))) then Some(f) else best
  }

  lemma LargestOfAll(ev: Event)
    ensures LargestOf(ev, 3) == Largest(ev)
  {
    hide EncodedLen;
    assert LargestOf(ev, 1) == if Weight(ev.text) > 0 then Some(TextField) else None;
    assert LargestOf(ev, 2) == if Weight(ev.input) > Weight(ev.text) then Some(InputField) else LargestOf(ev, 1);
  }

  method LargestField(ev: Event) returns (r: Option<Field>)
    ensures r == Largest(ev)
  {
    var size := 0;
    r := None;
    for k := 0 to |FIELDS|
      invariant r == LargestOf(ev, k) && size == if r == None then 0 else Weight(Get(ev, r.value))
    {
      hide EncodedLen, Get;
      var s := Get(ev, FIELDS[k]);
      if s != [] && EncodedLen(s) > size {
        r, size := Some(FIELDS[k]), EncodedLen(s);
      }
    }
    LargestOfAll(ev);
  }

  ghost function Halved(s: Text): Text { if |s| <= 4 then [] else Clip(s, |s| / 2) }

  ghost function Shrink(ev: Event): Event {
    match Largest(ev)
    case None => ev
    case Some(f) => Put(ev, f, Halved(Get(ev, f)))
  }

  // A valid text of two or three bytes and the ellipsis.
  ghost predicate Fixed(s: Text) {
    5 <= |s| <= 6 && s[|s| - 3..] == ELLIPSIS && Valid(s[..|s| - 3])
  }

  // These are exactly the fields a round cannot shrink.
  lemma FixedIs(s: Text)
    requires s != []
    ensures Halved(s) == s <==> Fixed(s)
  {
    if |s| > 4 {
      ClipIs(s, |s| / 2);
      var n := CutPoint(s, |s| / 2);
      assert (s[..n] + ELLIPSIS)[n..] == ELLIPSIS && s == s[..n] + s[n..];
      if Fixed(s) {
        assert n == |s| / 2 == |s| - 3;
      }
    }
  }

  ghost predicate Stuck(ev: Event) {
    Largest(ev).Some? && Fixed(Get(ev, Largest(ev).value))
  }

  // Anything else a round makes shorter, or fixed.
  lemma HalvedIs(s: Text)
    requires s != [] && !Fixed(s)
    ensures |Halved(s)| < |s| || (|Halved(s)| == |s| && Fixed(Halved(s)))
    ensures Part(0, Halved(s)) <= Part(0, s)
  {
    if |s| > 4 {
      ClipIs(s, |s| / 2);
      var n := CutPoint(s, |s| / 2);
      CutCost(s, n);
      assert Halved(s)[..n] == s[..n] && Halved(s)[n..] == ELLIPSIS;
    }
  }

  ghost function Loose(s: Text): nat { if Fixed(s) then 0 else 1 }

  ghost function Length(ev: Event): nat { |ev.text| + |ev.input| + |ev.output| }

  ghost function LooseFields(ev: Event): nat { Loose(ev.text) + Loose(ev.input) + Loose(ev.output) }

  // The measure of the loop, and what a round costs.
  lemma ShrinkDecreases(ev: Event)
    requires Largest(ev).Some? && !Stuck(ev)
    ensures Length(Shrink(ev)) < Length(ev)
        || (Length(Shrink(ev)) == Length(ev) && LooseFields(Shrink(ev)) < LooseFields(ev))
    ensures EventSize(Shrink(ev)) <= EventSize(ev)
    ensures Base(Shrink(ev)) == Base(ev)
  {
    hide Fixed, Halved, EncodedLen;
    LargestIs(ev);
    HalvedIs(Get(ev, Largest(ev).value));
  }

  // ---------------------------------------------------------------- the loop

  // The event after so many rounds, whether the source would take them or not.
  ghost function After(ev: Event, n: nat): Event
    decreases n
  {
    if n == 0 then ev else After(Shrink(ev), n - 1)
  }

  // The loop goes on.
  ghost predicate Goes(ev: Event, limit: int) { EventSize(ev) > limit && Largest(ev).Some? }

  // The first event at which the loop stops, looked for until a round changes nothing.
  ghost function Rounds(ev: Event, limit: int): Option<Event>
    decreases Length(ev), LooseFields(ev)
  {
    if !Goes(ev, limit) then Some(ev)
    else if Stuck(ev) then None
    else
      ShrinkDecreases(ev);
      Rounds(Shrink(ev), limit)
  }

  // A round leaves a stuck event as it is, and so does any number of rounds.
  lemma StuckStays(ev: Event)
    requires Stuck(ev)
    ensures Shrink(ev) == ev
  {
    LargestIs(ev);
    FixedIs(Get(ev, Largest(ev).value));
  }

  lemma {:induction false} StuckForever(ev: Event, n: nat)
    requires Stuck(ev)
    ensures After(ev, n) == ev
    decreases n
  {
    hide Stuck, Shrink;
    StuckStays(ev);
    if n > 0 { StuckForever(ev, n - 1); }
  }

  lemma {:induction false} RunsForever(ev: Event, limit: int, n: nat)
    requires Rounds(ev, limit) == None
    ensures Goes(After(ev, n), limit)
    decreases n
  {
    hide Stuck, Shrink, Goes;
    if Stuck(ev) {
      StuckForever(ev, n);
    } else if n > 0 {
      RunsForever(Shrink(ev), limit, n - 1);
    }
  }

  lemma {:induction false} StopsAfter(ev: Event, limit: int) returns (n: nat)
    requires Rounds(ev, limit).Some?
    ensures After(ev, n) == Rounds(ev, limit).value && !Goes(After(ev, n), limit)
    ensures forall m: nat :: m < n ==> Goes(After(ev, m), limit)
    decreases Length(ev), LooseFields(ev)
  {
    hide Stuck, Shrink, Goes, Length, LooseFields;
    n := 0;
    if Goes(ev, limit) {
      assert Largest(ev).Some? by { GoesIs(ev, limit); }
      ShrinkDecreases(ev);
      var k := StopsAfter(Shrink(ev), limit);
      n := k + 1;
      forall m: nat | m < n ensures Goes(After(ev, m), limit) {
        if m > 0 { assert After(ev, m) == After(Shrink(ev), m - 1); }
      }
    }
  }

  lemma GoesIs(ev: Event, limit: int)
    requires Goes(ev, limit)
    ensures Largest(ev).Some? && EventSize(ev) > limit
  {
  }

  // There is no result exactly when the loop goes on after every number of rounds.
  lemma NeverEndsExactly(ev: Event, limit: int)
    ensures Rounds(ev, limit) == None <==> forall n: nat :: Goes(After(ev, n), limit)
  {
    if Rounds(ev, limit) == None {
      forall n: nat ensures Goes(After(ev, n), limit) { RunsForever(ev, limit, n); }
    } else {
      var n := StopsAfter(ev, limit);
    }
  }

  // ---------------------------------------------------------------- where one field ends

  // What repeated halving leaves of a field: its first two or three bytes and the ellipsis, if
  // they can be cut there, and otherwise nothing.
  ghost function FieldFloor(s: Text): Text {
    if |s| <= 4 then []
    else
      var n := CutPoint(s, if |s| == 5 then 2 else 3);
      if n >= 2 then s[..n] + ELLIPSIS else []
  }

  // A cut depends on nothing behind it.
  lemma {:induction false} CutPointSame(s: Text, t: Text, limit: nat)
    requires limit <= |s| && limit <= |t| && s[..limit] == t[..limit]
    ensures CutPoint(s, limit) == CutPoint(t, limit)
    decreases limit
  {
    if !Valid(s[..limit]) {
      assert s[..limit - 1] == s[..limit][..limit - 1] && t[..limit - 1] == t[..limit][..limit - 1];
      CutPointSame(s, t, limit - 1);
    }
  }

  lemma CutPointDown(s: Text, low: nat, high: nat)
    requires low <= high <= |s| && CutPoint(s, high) <= low
    ensures CutPoint(s, low) == CutPoint(s, high)
  {
    var a, b := CutPoint(s, low), CutPoint(s, high);
    assert Valid(s[..a]) && Valid(s[..b]);
  }

  lemma FieldFloorOfFixed(s: Text)
    requires Fixed(s)
    ensures FieldFloor(s) == s
  {
    var n := |s| - 3;
    assert CutPoint(s, n) == n && s == s[..n] + s[n..];
  }

  lemma FieldFloorIs(s: Text)
    ensures FieldFloor(s) == [] || Fixed(FieldFloor(s))
    ensures Weight(FieldFloor(s)) <= Weight(s)
  {
    if FieldFloor(s) != [] {
      var n := CutPoint(s, if |s| == 5 then 2 else 3);
      var floor := s[..n] + ELLIPSIS;
      assert floor[..n] == s[..n] && floor[n..] == ELLIPSIS;
      CutCost(s, n);
    }
  }

  // Halving does not change where a field ends.
  lemma FieldFloorKept(s: Text)
    ensures FieldFloor(Halved(s)) == FieldFloor(s)
  {
    if |s| > 4 {
      var half := |s| / 2;
      var c := CutPoint(s, half);
      var t := s[..c] + ELLIPSIS;
      assert Halved(s) == t && t[..c] == s[..c];
      if c >= 4 {
        assert t[..3] == t[..c][..3] && s[..3] == s[..c][..3];
        CutPointSame(t, s, 3);
        KeptCut(s, t, CutPoint(s, 3));
      } else {
        var low := if |s| == 5 then 2 else 3;
        CutPointDown(s, low, half);
        if c >= 2 {
          assert t[|t| - 3..] == ELLIPSIS && t[..|t| - 3] == s[..c];
          FieldFloorOfFixed(t);
        }
      }
    }
  }

  lemma KeptCut(s: Text, t: Text, n: nat)
    requires n <= 3 <= |s| && 3 <= |t| && s[..3] == t[..3]
    ensures s[..n] == t[..n]
  {
    assert s[..n] == s[..3][..n] && t[..n] == t[..3][..n];
  }

  // The first of a field's halves that weighs no more than the bound.
  ghost function Down(s: Text, bound: nat): Text
    requires Weight(FieldFloor(s)) <= bound
    decreases |s|, Loose(s)
  {
    if Weight(s) <= bound then s
    else
      DownStep(s, bound);
      Down(Halved(s), bound)
  }

  lemma DownStep(s: Text, bound: nat)
    requires Weight(FieldFloor(s)) <= bound < Weight(s)
    ensures Weight(FieldFloor(Halved(s))) <= bound
    ensures |Halved(s)| < |s| || (|Halved(s)| == |s| && Loose(Halved(s)) < Loose(s))
  {
    hide EncodedLen;
    FieldFloorKept(s);
    if Fixed(s) { FieldFloorOfFixed(s); }
    hide Fixed, Halved, FieldFloor;
    HalvedIs(s);
  }

  // ---------------------------------------------------------------- where an event ends

  // Every field at its end, each by itself.
  ghost function Floors(ev: Event): Event {
    ev.(text := FieldFloor(ev.text), input := FieldFloor(ev.input), output := FieldFloor(ev.output))
  }

  // The field the loop gets stuck on: the heaviest end, the first of equals.
  ghost function Winner(ev: Event): Option<Field> { Largest(Floors(ev)) }

  function Rank(f: Field): nat {
    match f
    case TextField => 0
    case InputField => 1
    case OutputField => 2
  }

  // What a field may weigh next to the winner without being halved again.
  ghost function Bound(ev: Event, f: Field): nat
    requires Winner(ev).Some?
  {
    var w := Weight(Get(Floors(ev), Winner(ev).value));
    if Rank(f) < Rank(Winner(ev).value) && w > 0 then w - 1 else w
  }

  lemma BoundIs(ev: Event, f: Field)
    requires Winner(ev).Some?
    ensures Get(Floors(ev), f) == FieldFloor(Get(ev, f))
    ensures Weight(FieldFloor(Get(ev, f))) <= Bound(ev, f) && Weight(Get(Floors(ev), Winner(ev).value)) > 0
  {
    hide EncodedLen, FieldFloor;
  }

  ghost function Rest(ev: Event, f: Field): Text {
    match Winner(ev)
    case None => []
    case Some(w) =>
      if f == w then FieldFloor(Get(ev, f))
      else
        BoundIs(ev, f);
        Down(Get(ev, f), Bound(ev, f))
  }

  // The event the loop ends or gets stuck at, from the fields one by one.
  ghost function Settled(ev: Event): Event {
    ev.(text := Rest(ev, TextField), input := Rest(ev, InputField), output := Rest(ev, OutputField))
  }

  lemma LargestOrder(ev: Event, f: Field)
    requires Largest(ev).Some?
    ensures Weight(Get(ev, f)) <= Weight(Get(ev, Largest(ev).value))
    ensures Rank(f) < Rank(Largest(ev).value) ==> Weight(Get(ev, f)) < Weight(Get(ev, Largest(ev).value))
  {
    hide EncodedLen;
  }

  lemma LargestBy(ev: Event, w: Field)
    requires Weight(Get(ev, w)) > 0
    requires forall f :: Weight(Get(ev, f)) <= Weight(Get(ev, w))
    requires forall f :: Rank(f) < Rank(w) ==> Weight(Get(ev, f)) < Weight(Get(ev, w))
    ensures Largest(ev) == Some(w)
  {
    hide EncodedLen;
    assert Weight(Get(ev, TextField)) <= Weight(Get(ev, w)) && Weight(Get(ev, InputField)) <= Weight(Get(ev, w));
    assert Weight(Get(ev, OutputField)) <= Weight(Get(ev, w));
    assert Rank(TextField) < Rank(w) ==> Weight(Get(ev, TextField)) < Weight(Get(ev, w));
    assert Rank(InputField) < Rank(w) ==> Weight(Get(ev, InputField)) < Weight(Get(ev, w));
  }

  lemma FloorsKept(ev: Event)
    ensures Floors(Shrink(ev)) == Floors(ev)
  {
    hide FieldFloor, Halved, Largest;
    if Largest(ev).Some? { FieldFloorKept(Get(ev, Largest(ev).value)); }
  }

  // A round changes only a field that is above its bound, or the winner.
  lemma RestKept(ev: Event, f: Field)
    requires Largest(ev).Some? && !Stuck(ev)
    ensures Rest(Shrink(ev), f) == Rest(ev, f)
  {
    hide FieldFloor, EncodedLen, Halved, Fixed, Floors, Weight;
    FloorsKept(ev);
    var g := Largest(ev).value;
    if Winner(ev).Some? {
      var w := Winner(ev).value;
      BoundIs(ev, f);
      FieldFloorKept(Get(ev, g));
      if f == g && f != w {
        LargestOrder(ev, w);
        BoundIs(ev, w);
        FieldFloorIs(Get(ev, w));
        assert Weight(Get(ev, f)) > Bound(ev, f);
      }
    }
  }

  lemma SettledKept(ev: Event)
    requires Largest(ev).Some? && !Stuck(ev)
    ensures Settled(Shrink(ev)) == Settled(ev)
  {
    hide Rest, Halved, Largest, Stuck;
    RestKept(ev, TextField);
    RestKept(ev, InputField);
    RestKept(ev, OutputField);
  }

  lemma RestStuck(ev: Event, f: Field)
    requires Stuck(ev)
    ensures Winner(ev) == Largest(ev) && Rest(ev, f) == Get(ev, f)
  {
    var g := Largest(ev).value;
    FieldFloorOfFixed(Get(ev, g));
    hide FieldFloor, EncodedLen, Fixed, Down;
    LargestIs(ev);
    forall x ensures Weight(Get(Floors(ev), x)) <= Weight(Get(ev, x)) { FieldFloorIs(Get(ev, x)); }
    forall x ensures Weight(Get(Floors(ev), x)) <= Weight(Get(Floors(ev), g)) { LargestOrder(ev, x); }
    forall x | Rank(x) < Rank(g)
      ensures Weight(Get(Floors(ev), x)) < Weight(Get(Floors(ev), g))
    {
      LargestOrder(ev, x);
    }
    LargestBy(Floors(ev), g);
    LargestOrder(ev, f);
    BoundIs(ev, f);
    if f != g { DownStays(Get(ev, f), Bound(ev, f)); }
  }

  lemma DownStays(s: Text, bound: nat)
    requires Weight(s) <= bound && Weight(FieldFloor(s)) <= bound
    ensures Down(s, bound) == s
  {
  }

  lemma SettledStuck(ev: Event)
    requires Stuck(ev)
    ensures Settled(ev) == ev && Winner(ev) == Largest(ev)
  {
    hide Rest, Stuck;
    RestStuck(ev, TextField);
    RestStuck(ev, InputField);
    RestStuck(ev, OutputField);
  }

  lemma SettledEmpty(ev: Event)
    requires Largest(ev) == None
    ensures Settled(ev) == ev && Winner(ev) == None
  {
    LargestIs(ev);
    assert FieldFloor([]) == [];
    assert Floors(ev) == ev;
  }

  lemma WinnerKept(ev: Event)
    ensures Winner(Shrink(ev)) == Winner(ev)
  {
    hide Floors, Shrink;
    FloorsKept(ev);
  }

  // The loop ends if and only if the limit admits the event its fields settle at, or none of
  // them gets stuck; and when it ends the event fits, or has nothing left to take.
  lemma {:induction false} EndsExactly(ev: Event, limit: int)
    ensures Rounds(ev, limit).Some? <==> EventSize(Settled(ev)) <= limit || Winner(ev) == None
    ensures Rounds(ev, limit).Some? ==>
              EventSize(Rounds(ev, limit).value) <= limit || EventSize(Rounds(ev, limit).value) == Base(ev)
    ensures Rounds(ev, limit).Some? ==> Base(Rounds(ev, limit).value) == Base(ev)
    ensures EventSize(Settled(ev)) <= EventSize(ev) && Base(Settled(ev)) == Base(ev)
    decreases Length(ev), LooseFields(ev)
  {
    EmptyIsBase(ev);
    hide Stuck, Shrink, EventSize, Base, Length, LooseFields, Largest, Settled, Winner;
    if Largest(ev) == None {
      SettledEmpty(ev);
    } else if Stuck(ev) {
      SettledStuck(ev);
    } else {
      ShrinkDecreases(ev);
      SettledKept(ev);
      WinnerKept(ev);
      EndsExactly(Shrink(ev), limit);
    }
  }

  // The rounds do lead there, to an event with no field left or with its heaviest field fixed.
  lemma {:induction false} RoundsLead(ev: Event) returns (n: nat)
    ensures After(ev, n) == Settled(ev) && (Largest(Settled(ev)) == None || Stuck(Settled(ev)))
    decreases Length(ev), LooseFields(ev)
  {
    hide Stuck, Shrink, Length, LooseFields, Largest, Settled, Winner;
    n := 0;
    if Largest(ev) == None {
      SettledEmpty(ev);
    } else if Stuck(ev) {
      SettledStuck(ev);
    } else {
      ShrinkDecreases(ev);
      SettledKept(ev);
      var k := RoundsLead(Shrink(ev));
      n := k + 1;
    }
  }

  // Rounds taken so far do not change where an event settles.
  lemma {:induction false} SettledAfter(ev: Event, n: nat)
    ensures Settled(After(ev, n)) == Settled(ev) && Winner(After(ev, n)) == Winner(ev)
    decreases n
  {
    hide Stuck, Shrink, Largest, Settled, Winner;
    if n > 0 {
      SettledAfter(Shrink(ev), n - 1);
      WinnerKept(ev);
      if Largest(ev) == None {
        assert Shrink(ev) == ev by { EmptyStays(ev); }
      } else if Stuck(ev) {
        StuckStays(ev);
      } else {
        SettledKept(ev);
      }
    }
  }

  lemma EmptyStays(ev: Event)
    requires Largest(ev) == None
    ensures Shrink(ev) == ev
  {
  }

  // It settles at nothing but its fixed part exactly when no field gets stuck.
  lemma SettledAtBase(ev: Event)
    ensures EventSize(Settled(ev)) <= Base(ev) <==> Winner(ev) == None
    ensures Base(Settled(ev)) == Base(ev)
  {
    hide FieldFloor, Down, EncodedLen;
    if Winner(ev).Some? {
      var w := Winner(ev).value;
      LargestIs(Floors(ev));
      BoundIs(ev, w);
      assert Get(Settled(ev), w) == FieldFloor(Get(ev, w)) != [];
    }
  }

  lemma EmptyIsBase(ev: Event)
    ensures Largest(ev) == None ==> EventSize(ev) == Base(ev)
  {
    LargestIs(ev);
  }

  // It ends whatever the limit if and only if every field ends at nothing.
  lemma EndsAlwaysExactly(ev: Event)
    ensures (forall limit: int :: Rounds(ev, limit).Some?) <==> (forall f :: FieldFloor(Get(ev, f)) == [])
  {
    hide FieldFloor, EncodedLen, Rounds, Settled, Goes;
    LargestIs(Floors(ev));
    assert Winner(ev) == None <==> forall f :: FieldFloor(Get(ev, f)) == [] by { NoWinner(ev); }
    EndsExactly(ev, -1);
    forall limit: int ensures Winner(ev) == None ==> Rounds(ev, limit).Some? { EndsExactly(ev, limit); }
  }

  lemma NoWinner(ev: Event)
    ensures Winner(ev) == None <==> forall f :: FieldFloor(Get(ev, f)) == []
  {
    hide FieldFloor, EncodedLen;
    LargestIs(Floors(ev));
    if forall f :: FieldFloor(Get(ev, f)) == [] {
      assert FieldFloor(Get(ev, TextField)) == [] && FieldFloor(Get(ev, InputField)) == [];
      assert FieldFloor(Get(ev, OutputField)) == [];
    } else {
      var f :| FieldFloor(Get(ev, f)) != [];
      assert Get(Floors(ev), f) != [];
    }
  }

  // What three stuck fields can take: at most 23 encoded bytes each and their labels.
  const ROOM := 96

  lemma FixedWeighs(s: Text)
    requires Fixed(s)
    ensures Weight(s) <= 23
  {
    var n := |s| - 3;
    EllipsisCost();
    CostConcat(s[..n], ELLIPSIS);
    CostBounds(s[..n]);
    assert s == s[..n] + ELLIPSIS;
  }

  lemma WinnerIsHeaviest(ev: Event, f: Field)
    requires Winner(ev).Some?
    ensures Rest(ev, Winner(ev).value) == FieldFloor(Get(ev, Winner(ev).value))
    ensures Weight(Rest(ev, f)) <= Weight(FieldFloor(Get(ev, Winner(ev).value))) <= 23
  {
    hide FieldFloor, EncodedLen, Fixed, Down;
    var w := Winner(ev).value;
    BoundIs(ev, w);
    BoundIs(ev, f);
    FieldFloorIs(Get(ev, w));
    FixedWeighs(FieldFloor(Get(ev, w)));
    if f != w { DownWeighs(Get(ev, f), Bound(ev, f)); }
  }

  lemma {:induction false} DownWeighs(s: Text, bound: nat)
    requires Weight(FieldFloor(s)) <= bound
    ensures Weight(Down(s, bound)) <= bound
    decreases |s|, Loose(s)
  {
    hide EncodedLen, FieldFloor, Halved, Fixed, Weight, Loose;
    if Weight(s) > bound {
      DownStep(s, bound);
      DownWeighs(Halved(s), bound);
    }
  }

  // What stays is at most 23 encoded bytes per field and their labels.
  lemma SettledIsSmall(ev: Event)
    requires Winner(ev).Some?
    ensures EventSize(Settled(ev)) <= Base(ev) + ROOM
  {
    hide Rest, EncodedLen;
    WinnerIsHeaviest(ev, TextField);
    WinnerIsHeaviest(ev, InputField);
    WinnerIsHeaviest(ev, OutputField);
  }

  lemma StuckIsSmall(ev: Event)
    requires Stuck(ev)
    ensures EventSize(ev) <= Base(ev) + ROOM
  {
    hide Stuck, EventSize, Base, Settled;
    SettledStuck(ev);
    assert Largest(ev).Some? by { StuckHasLargest(ev); }
    SettledIsSmall(ev);
  }

  lemma StuckHasLargest(ev: Event)
    requires Stuck(ev)
    ensures Largest(ev).Some?
  {
  }

  // With that much room above the fixed part, clipping always ends with an event that fits.
  lemma RoomSuffices(ev: Event, limit: int)
    requires limit >= Base(ev) + ROOM
    ensures Rounds(ev, limit).Some? && EventSize(Rounds(ev, limit).value) <= limit
  {
    hide EventSize, Base, Settled, Rounds;
    EndsExactly(ev, limit);
    if Winner(ev).Some? { SettledIsSmall(ev); }
  }

  // Two letters and an ellipsis are fixed.
  const SMALL: Text := [0x61, 0x62] + ELLIPSIS

  lemma SmallIsFixed()
    ensures Fixed(SMALL) && EncodedLen(SMALL) == 7
  {
    assert SMALL[2..] == ELLIPSIS && SMALL[..2] == [0x61, 0x62];
    assert SMALL[..2][1..] == [0x62] && SMALL[..2][1..][1..] == [];
    assert Valid(SMALL[..2]);
    EllipsisCost();
    CostConcat(SMALL[..2], ELLIPSIS);
    assert Cost([0x62]) == 1 + Cost([]) && Cost(SMALL[..2]) == 1 + Cost([0x62]);
    assert SMALL == SMALL[..2] + ELLIPSIS;
  }

  // Without it, it may not: however many rounds are taken, an event of five bytes of output
  // that has to lose them is what it was.
  lemma StuckExample(n: nat)
    ensures var ev := Event([0x74], [], [], [], SMALL);
      After(ev, n) == ev && forall limit: int :: limit < EventSize(ev) ==> Goes(After(ev, n), limit)
  {
    var ev := Event([0x74], [], [], [], SMALL);
    SmallIsFixed();
    LargestIs(ev);
    StuckForever(ev, n);
  }

  // ---------------------------------------------------------------- clipEventToLimit

  ghost function Cut(ev: Event): Event {
    ev.(text := Clip(ev.text, MAX_MESSAGE_BYTES), input := Clip(ev.input, MAX_MESSAGE_BYTES),
        output := Clip(ev.output, MAX_MESSAGE_BYTES))
  }

  ghost function Fitted(ev: Event, limit: int): Option<Event> { Rounds(Cut(ev), limit) }

  ghost predicate LongField(ev: Event) {
    |ev.text| > MAX_MESSAGE_BYTES || |ev.input| > MAX_MESSAGE_BYTES || |ev.output| > MAX_MESSAGE_BYTES
  }

  method ClipEventToLimit(ev: Event, limit: int, already: bool) returns (r: Event, truncated: bool)
    requires Fitted(ev, limit).Some?
    ensures r == Fitted(ev, limit).value
    ensures truncated == (already || LongField(ev) || (EventSize(Cut(ev)) > limit && Largest(Cut(ev)).Some?))
  {
    var text, a := ClipText(ev.text, MAX_MESSAGE_BYTES);
    var input, b := ClipText(ev.input, MAX_MESSAGE_BYTES);
    var output, c := ClipText(ev.output, MAX_MESSAGE_BYTES);
    r, truncated := ev.(text := text, input := input, output := output), already || a || b || c;
    var field := LargestField(r);
    while EventSize(r) > limit && field.Some?
      invariant field == Largest(r)
      invariant Rounds(r, limit) == Fitted(ev, limit)
      invariant r == Cut(ev) || truncated
      invariant already || LongField(ev) ==> truncated
      invariant truncated ==> already || LongField(ev) || (EventSize(Cut(ev)) > limit && Largest(Cut(ev)).Some?)
      decreases Length(r), LooseFields(r)
    {
      hide Fixed, EventSize, EncodedLen, Largest, Length, LooseFields;
      ShrinkDecreases(r);
      var s := Get(r, field.value);
      if |s| <= 4 {
        s := [];
      } else {
        var cut;
        s, cut := ClipText(s, |s| / 2);
      }
      r, truncated := Put(r, field.value, s), true;
      field := LargestField(r);
    }
  }
}
