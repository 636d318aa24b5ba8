/**
  Cutting text to a number of bytes without cutting a UTF-8 sequence apart.
 */
module Clipping {
  import opened Basics

  type Text = seq<Byte>

  const ELLIPSIS: Text := [0xE2, 0x80, 0xA6]

  predicate Continues(s: Text, i: nat) {
    i < |s| && 0x80 <= s[i] <= 0xBF
  }

  // The length of the well-formed sequence a text starts with, or 0 (table 3-7 of the Unicode
  // standard: no overlong forms, no surrogates, nothing above U+10FFFF).
  function RuneLen(s: Text): nat
    ensures RuneLen(s) <= 4 && RuneLen(s) <= |s|
  {
    if s == [] then 0
    else if s[0] < 0x80 then 1
    else if 0xC2 <= s[0] <= 0xDF then (if Continues(s, 1) then 2 else 0)
    else if 0xE0 <= s[0] <= 0xEF then
      (if Continues(s, 1) && Continues(s, 2) && (s[0] == 0xE0 ==> s[1] >= 0xA0) && (s[0] == 0xED ==> s[1] <= 0x9F)
       then 3 else 0)
    else if 0xF0 <= s[0] <= 0xF4 then
      (if Continues(s, 1) && Continues(s, 2) && Continues(s, 3)
          && (s[0] == 0xF0 ==> s[1] >= 0x90) && (s[0] == 0xF4 ==> s[1] <= 0x8F) then 4 else 0)
    else 0
  }

  predicate Valid(s: Text) {
    s == [] || (RuneLen(s) > 0 && Valid(s[RuneLen(s)..]))
  }

  lemma RuneLenConcat(a: Text, b: Text)
    requires RuneLen(a) > 0
    ensures RuneLen(a + b) == RuneLen(a)
  {
    assert forall i :: 0 <= i < |a| ==> (a + b)[i] == a[i];
  }

  lemma {:induction false} ValidConcat(a: Text, b: Text)
    requires Valid(a) && Valid(b)
    ensures Valid(a + b)
    decreases |a|
  {
    if a == [] {
      assert a + b == b;
    } else {
      RuneLenConcat(a, b);
      assert (a + b)[RuneLen(a)..] == a[RuneLen(a)..] + b;
      ValidConcat(a[RuneLen(a)..], b);
    }
  }

  // A prefix that holds the whole first sequence starts with it.
  lemma RuneLenPrefix(s: Text, n: nat)
    requires 0 < RuneLen(s) <= n <= |s|
    ensures RuneLen(s[..n]) == RuneLen(s)
  {
    assert forall i :: 0 <= i < n ==> s[..n][i] == s[i];
  }

  // Valid text can be cut at most three bytes before any point.
  lemma {:induction false} Boundary(s: Text, n: nat) returns (b: nat)
    requires Valid(s) && n <= |s|
    ensures n - 3 <= b <= n && Valid(s[..b])
    decreases |s|
  {
    var first := RuneLen(s);
    if n < first || s == [] {
      b := 0;
    } else {
      var rest := Boundary(s[first..], n - first);
      b := first + rest;
      RuneLenPrefix(s, b);
      assert s[..b][first..] == s[first..][..rest];
    }
  }

  // Where clip cuts.
  ghost function CutPoint(text: Text, limit: nat): (n: nat)
    requires limit <= |text|
    ensures n <= limit && Valid(text[..n])
    ensures forall m :: n < m <= limit ==> !Valid(text[..m])
  {
    if Valid(text[..limit]) then limit
    else CutPoint(text, limit - 1)
  }

  ghost function Clip(text: Text, limit: nat): Text {
    if |text| <= limit then text else text[..CutPoint(text, limit)] + ELLIPSIS
  }

  // A clipped text is the longest valid prefix within the limit, then an ellipsis; of valid
  // text it loses at most three bytes below the limit, and it is valid.
  lemma ClipIs(text: Text, limit: nat)
    requires |text| > limit
    ensures Valid(Clip(text, limit)) && |Clip(text, limit)| <= limit + 3
    ensures Clip(text, limit) == text[..CutPoint(text, limit)] + ELLIPSIS
    ensures Valid(text) ==> CutPoint(text, limit) >= limit - 3
  {
    assert Valid(ELLIPSIS) by { assert RuneLen(ELLIPSIS) == 3 && ELLIPSIS[3..] == []; }
    ValidConcat(text[..CutPoint(text, limit)], ELLIPSIS);
    if Valid(text) {
      var b := Boundary(text, limit);
    }
  }

  method ClipText(text: Text, limit: nat) returns (cut: Text, clipped: bool)
    ensures cut == Clip(text, limit) && clipped == (|text| > limit)
  {
    if |text| <= limit { return text, false; }
    var bytes := text[..limit];
    while |bytes| > 0 && !Valid(bytes)
      invariant |bytes| <= limit && bytes == text[..|bytes|]
      invariant CutPoint(text, |bytes|) == CutPoint(text, limit)
    {
      bytes := bytes[..|bytes| - 1];
    }
    cut, clipped := bytes + ELLIPSIS, true;
  }

  // ---------------------------------------------------------------- the size of encoded text

  // What one well-formed sequence takes in a JSON string: quotes, backslashes and the short
  // escapes two bytes, other controls, HTML characters and the two line separators six.
  function RuneCost(s: Text): (c: nat)
    requires RuneLen(s) > 0
    ensures RuneLen(s) <= c <= 6
  {
    if RuneLen(s) == 1 then
      if s[0] in {0x22, 0x5C, 0x08, 0x09, 0x0A, 0x0C, 0x0D} then 2
      else if s[0] < 0x20 || s[0] in {0x26, 0x3C, 0x3E} then 6
      else 1
    else if RuneLen(s) == 3 && s[0] == 0xE2 && s[1] == 0x80 && (s[2] == 0xA8 || s[2] == 0xA9) then 6
    else RuneLen(s)
  }

  // A byte that starts no sequence is written as an escaped replacement character.
  function Cost(s: Text): nat {
    if s == [] then 0
    else if RuneLen(s) == 0 then 6 + Cost(s[1..])
    else RuneCost(s) + Cost(s[RuneLen(s)..])
  }

  function EncodedLen(s: Text): nat { Cost(s) + 2 }

  lemma {:induction false} CostBounds(s: Text)
    ensures |s| <= Cost(s) <= 6 * |s|
    decreases |s|
  {
    if s != [] {
      if RuneLen(s) == 0 { CostBounds(s[1..]); } else { CostBounds(s[RuneLen(s)..]); }
    }
  }

  lemma {:induction false} CostConcat(a: Text, b: Text)
    requires Valid(a)
    ensures Cost(a + b) == Cost(a) + Cost(b)
    decreases |a|
  {
    if a == [] {
      assert a + b == b;
    } else {
      RuneLenConcat(a, b);
      assert (a + b)[RuneLen(a)..] == a[RuneLen(a)..] + b;
      CostConcat(a[RuneLen(a)..], b);
    }
  }

  lemma EllipsisCost()
    ensures Cost(ELLIPSIS) == 3 && Valid(ELLIPSIS)
  {
    assert RuneLen(ELLIPSIS) == 3 && ELLIPSIS[3..] == [];
  }

  // Cutting at least three bytes off pays for the ellipsis.
  lemma CutCost(s: Text, n: nat)
    requires n + 3 <= |s| && Valid(s[..n])
    ensures Cost(s[..n] + ELLIPSIS) <= Cost(s)
  {
    EllipsisCost();
    CostConcat(s[..n], ELLIPSIS);
    CostConcat(s[..n], s[n..]);
    assert s == s[..n] + s[n..];
    CostBounds(s[n..]);
  }
}
