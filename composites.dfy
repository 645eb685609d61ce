/** The synthetic composite segments the inserter builds from a segment's
    sub-element entries before writing them to the composite tables:
    C001 (units of measure, from K3 and QTY element 3), C058 (adjustment
    reasons, from RAS element 3), C040 (reference identifiers, from RDM and
    REF) and C022 (from CLP element 11). Entries come in `Object.entries`
    order: integer-like keys ascending, then `name`. */
module Composites {
  import opened Wrappers
  import opened Text
  import opened Records

  /** Looking a key up in a concatenation looks in the front part first. */
  lemma {:induction false} GetAppend(a: Fields, b: Fields, key: string)
    ensures Get(a + b, key) == if Get(a, key).Some? then Get(a, key) else Get(b, key)
    decreases |a|
  {
    if a == [] {
      assert a + b == b;
    } else {
      assert (a + b)[1..] == a[1..] + b;
      GetAppend(a[1..], b, key);
    }
  }

  /** `data[key]` when truthy, otherwise nothing: what a conditional spread
      `...(data[key] ? {slot: data[key]} : {})` contributes. */
  function Kept(data: Fields, key: string): (v: Option<string>)
    ensures v.Some? <==> Truthy(Get(data, key))
    ensures v.Some? ==> v == Get(data, key)
  {
    if Truthy(Get(data, key)) then Get(data, key) else None
  }

  function Entry(slot: string, v: Option<string>): Fields {
    match v
    case Some(x) => [(slot, x)]
    case None => []
  }

  lemma EntryGet(slot: string, v: Option<string>, key: string)
    ensures Get(Entry(slot, v), key) == if key == slot then v else None
  {
  }

  // ---------------------------------------------------------------- C001

  /** The data key of C001 component `i + 1`, for i = 1..14. */
  function C001Key(i: nat): string {
    "3-" + NatStr(i)
  }

  /** The C001 components after the first: `3-idx`, `3-(idx+1)`, … each as
      component `idx+1`, `idx+2`, …, stopping at the first key that is empty
      or absent and after `3-14` at the latest. */
  function C001Run(data: Fields, idx: nat): Fields
    decreases 15 - idx
  {
    if idx >= 15 then []
    else
      var v := Get(data, C001Key(idx));
      if !Truthy(v) then [] else [(NatStr(idx + 1), v.value)] + C001Run(data, idx + 1)
  }

  /** The run never goes beyond `3-14`. */
  lemma {:induction false} C001RunLength(data: Fields, idx: nat)
    requires 1 <= idx <= 15
    ensures idx + |C001Run(data, idx)| <= 15
    decreases 15 - idx
  {
    if idx < 15 && Truthy(Get(data, C001Key(idx))) {
      C001RunLength(data, idx + 1);
    }
  }

  /** Component `k` of the run is the truthy sub-element `3-(idx+k)`, as
      component number `idx + k + 1`. */
  lemma {:induction false} C001RunAt(data: Fields, idx: nat, k: nat)
    requires k < |C001Run(data, idx)|
    ensures Truthy(Get(data, C001Key(idx + k)))
    ensures C001Run(data, idx)[k] == (NatStr(idx + k + 1), Get(data, C001Key(idx + k)).value)
    decreases k
  {
    var run := C001Run(data, idx);
    var rest := C001Run(data, idx + 1);
    var v := Get(data, C001Key(idx));
    assert run == [(NatStr(idx + 1), v.value)] + rest;
    if k > 0 {
      C001RunAt(data, idx + 1, k - 1);
      assert run[k] == rest[k - 1];
      assert idx + 1 + (k - 1) == idx + k;
    }
  }

  /** The run ends at `3-14` or at the first sub-element that is not truthy. */
  lemma {:induction false} C001RunStops(data: Fields, idx: nat)
    requires 1 <= idx <= 15
    ensures idx + |C001Run(data, idx)| < 15 ==> !Truthy(Get(data, C001Key(idx + |C001Run(data, idx)|)))
    decreases 15 - idx
  {
    if idx < 15 && Truthy(Get(data, C001Key(idx))) {
      C001RunStops(data, idx + 1);
    }
  }

  /** The C001 composite of a K3 or QTY segment: present exactly when
      element 3 is truthy; element 3 is component 1, followed by the run of
      sub-elements, then the name. */
  function C001Of(data: Fields): (sub: Option<Fields>)
    ensures sub.Some? <==> Truthy(Get(data, "3"))
    ensures sub.Some? ==>
      2 <= |sub.value| <= 16 &&
      sub.value[0] == ("1", Get(data, "3").value) &&
      sub.value[|sub.value| - 1] == ("name", "C001")
  {
    var v3 := Get(data, "3");
    if Truthy(v3) then
      C001RunLength(data, 1);
      Some([("1", v3.value)] + C001Run(data, 1) + [("name", "C001")])
    else None
  }

  /** The loop of insertK3/insertQTY that collects the C001 components. */
  method BuildC001(data: Fields) returns (sub: Option<Fields>)
    ensures sub == C001Of(data)
  {
    var v3 := Get(data, "3");
    if !Truthy(v3) {
      return None;
    }
    var s: Fields := [("1", v3.value)];
    var idx := 1;
    while idx < 15
      invariant 1 <= idx <= 15
      invariant [("1", v3.value)] + C001Run(data, 1) == s + C001Run(data, idx)
    {
      var value := Get(data, "3-" + NatStr(idx));
      if !Truthy(value) {
        assert C001Run(data, idx) == [];
        break;
      }
      assert C001Run(data, idx) == [(NatStr(idx + 1), value.value)] + C001Run(data, idx + 1);
      s := s + [(NatStr(idx + 1), value.value)];
      idx := idx + 1;
    }
    assert s + C001Run(data, idx) == s;
    sub := Some(s + [("name", "C001")]);
  }

  // ---------------------------------------------------------------- C058

  /** The data key of sub-element `w` of repetition `rep`: `3-w-rep`. */
  function RasKey(rep: nat, w: nat): string {
    "3-" + NatStr(w) + "-" + NatStr(rep)
  }

  /** How far the sub-element number runs ahead of the component index: the
      first repetition reads `3-c-1` into component c + 1 (its component 1 is
      element 3 itself), every later one reads `3-(c+1)-rep` into
      component c + 1. */
  function Shift(r: nat): nat {
    if r == 0 then 0 else 1
  }

  /** Components `c + 1` to 7 of repetition `rep`, up to the first key that
      is empty or absent. */
  function RasRun(data: Fields, rep: nat, c: nat, shift: nat): Fields
    decreases 7 - c
  {
    if c >= 7 then []
    else
      var v := Get(data, RasKey(rep, c + shift));
      if !Truthy(v) then [] else [(NatStr(c + 1), v.value)] + RasRun(data, rep, c + 1, shift)
  }

  /** A repetition has at most seven components. */
  lemma {:induction false} RasRunLength(data: Fields, rep: nat, c: nat, shift: nat)
    requires c <= 7
    ensures c + |RasRun(data, rep, c, shift)| <= 7
    decreases 7 - c
  {
    if c < 7 && Truthy(Get(data, RasKey(rep, c + shift))) {
      RasRunLength(data, rep, c + 1, shift);
    }
  }

  /** Entry `k` of the run is component `c + k + 1`, read from the truthy
      sub-element `c + shift + k`. */
  lemma RasRunAt(data: Fields, rep: nat, c: nat, shift: nat, k: nat)
    requires k < |RasRun(data, rep, c, shift)|
    ensures Truthy(Get(data, RasKey(rep, c + shift + k)))
    ensures RasRun(data, rep, c, shift)[k] == (NatStr(c + k + 1), Get(data, RasKey(rep, c + shift + k)).value)
  {
    RasRunEntry(data, rep, c, shift, k, c + shift + k, c + k + 1);
  }

  /** The same, with the sub-element `w` and the component `n` named, so
      that the induction keeps them fixed. */
  lemma {:induction false} RasRunEntry(data: Fields, rep: nat, c: nat, shift: nat, k: nat, w: nat, n: nat)
    requires k < |RasRun(data, rep, c, shift)| && w == c + shift + k && n == c + k + 1
    ensures Truthy(Get(data, RasKey(rep, w)))
    ensures RasRun(data, rep, c, shift)[k] == (NatStr(n), Get(data, RasKey(rep, w)).value)
    decreases k
  {
    var run := RasRun(data, rep, c, shift);
    var rest := RasRun(data, rep, c + 1, shift);
    var v := Get(data, RasKey(rep, c + shift));
    assert run == [(NatStr(c + 1), v.value)] + rest;
    if k > 0 {
      RasRunEntry(data, rep, c + 1, shift, k - 1, w, n);
      assert run[k] == rest[k - 1];
    }
  }

  /** The run ends after component 7 or at the first key that is not truthy. */
  lemma RasRunStops(data: Fields, rep: nat, c: nat, shift: nat)
    requires c <= 7
    ensures c + |RasRun(data, rep, c, shift)| < 7 ==>
      !Truthy(Get(data, RasKey(rep, c + shift + |RasRun(data, rep, c, shift)|)))
  {
    RasRunEnd(data, rep, c, shift, c + |RasRun(data, rep, c, shift)|, c + shift + |RasRun(data, rep, c, shift)|);
  }

  /** The same, with the end `e` of the run and its sub-element `w` named,
      so that the induction keeps them fixed. */
  lemma {:induction false} RasRunEnd(data: Fields, rep: nat, c: nat, shift: nat, e: nat, w: nat)
    requires c <= 7 && e == c + |RasRun(data, rep, c, shift)| && w == e + shift
    ensures e < 7 ==> !Truthy(Get(data, RasKey(rep, w)))
    decreases 7 - c
  {
    if c < 7 && Truthy(Get(data, RasKey(rep, c + shift))) {
      var rest := RasRun(data, rep, c + 1, shift);
      assert RasRun(data, rep, c, shift) == [(NatStr(c + 1), Get(data, RasKey(rep, c + shift)).value)] + rest;
      RasRunEnd(data, rep, c + 1, shift, e, w);
    }
  }

  /** Component 1 of the first repetition: element 3 itself, stored even
      when empty. */
  function FirstReason(data: Fields): Fields {
    Entry("1", Get(data, "3"))
  }

  /** Where the run of repetition `r + 1` starts, and what precedes it. */
  function RunStart(r: nat): nat {
    if r == 0 then 1 else 0
  }

  function RunHead(data: Fields, r: nat): Fields {
    if r == 0 then FirstReason(data) else []
  }

  /** The C058 composite of repetition `r + 1`: the first always exists;
      a later one exists exactly when its sub-element `3-1-(r+1)` is truthy. */
  function C058At(data: Fields, r: nat): (sub: Option<Fields>)
    ensures r == 0 ==> sub.Some?
    ensures r > 0 ==> (sub.Some? <==> Truthy(Get(data, RasKey(r + 1, 1))))
    ensures sub.Some? ==> 1 <= |sub.value| <= 8 && sub.value[|sub.value| - 1] == ("name", "C058")
  {
    var run := RunHead(data, r) + RasRun(data, r + 1, RunStart(r), Shift(r));
    RasRunLength(data, r + 1, RunStart(r), Shift(r));
    if r > 0 && run == [] then None else Some(run + [("name", "C058")])
  }

  /** The C058 composites of repetitions `r + 1` to 15, in order. */
  function C058List(data: Fields, r: nat): (subs: seq<Fields>)
    ensures |subs| <= if r < 15 then 15 - r else 0
    decreases 15 - r
  {
    if r >= 15 then []
    else
      var here := C058At(data, r);
      (if here.Some? then [here.value] else []) + C058List(data, r + 1)
  }

  /** A RAS segment yields between 1 and 15 composites, the first one
      always from element 3 and its `3-c-1` sub-elements. */
  lemma C058Shape(data: Fields)
    ensures 1 <= |C058List(data, 0)| <= 15
    ensures C058List(data, 0)[0] == C058At(data, 0).value
  {
  }

  /** The inner loop of insertRAS: the components of repetition
      `repeatIdx + 1`, kept when it found any. */
  method BuildC058At(data: Fields, repeatIdx: nat) returns (info: Option<Fields>)
    ensures info == C058At(data, repeatIdx)
  {
    ghost var start, shift, rep := RunStart(repeatIdx), Shift(repeatIdx), repeatIdx + 1;
    ghost var target := RunHead(data, repeatIdx) + RasRun(data, rep, start, shift);
    var segmentInfo: Fields := [];
    var hasSubsegment := false;
    var compositeIdx := 0;
    while compositeIdx < 7
      invariant 0 <= compositeIdx <= 7
      invariant compositeIdx < start ==> segmentInfo == [] && !hasSubsegment
      invariant start <= compositeIdx ==> segmentInfo + RasRun(data, rep, compositeIdx, shift) == target
      invariant start <= compositeIdx ==> (hasSubsegment <==> segmentInfo != [] || repeatIdx == 0)
    {
      var workingIdx := compositeIdx;
      if repeatIdx == 0 && compositeIdx == 0 {
        hasSubsegment := true;
        segmentInfo := FirstReason(data);
        compositeIdx := compositeIdx + 1;
        continue;
      } else if repeatIdx == 0 {
        workingIdx := workingIdx - 1;
      }
      var value := Get(data, "3-" + NatStr(workingIdx + 1) + "-" + NatStr(repeatIdx + 1));
      assert value == Get(data, RasKey(rep, compositeIdx + shift));
      if Truthy(value) {
        hasSubsegment := true;
        segmentInfo := segmentInfo + [(NatStr(compositeIdx + 1), value.value)];
      } else {
        break;
      }
      compositeIdx := compositeIdx + 1;
    }
    assert segmentInfo == target;
    if hasSubsegment {
      info := Some(segmentInfo + [("name", "C058")]);
    } else {
      info := None;
    }
  }

  lemma C058ListStep(data: Fields, r: nat)
    requires r < 15
    ensures C058List(data, r) == (if C058At(data, r).Some? then [C058At(data, r).value] else []) + C058List(data, r + 1)
  {
  }

  /** The outer loop of insertRAS, from repetition `start + 1` on. */
  method BuildC058From(data: Fields, start: nat) returns (infos: seq<Fields>)
    requires start <= 15
    ensures infos == C058List(data, start)
  {
    infos := [];
    var repeatIdx := start;
    while repeatIdx < 15
      invariant start <= repeatIdx <= 15
      invariant infos + C058List(data, repeatIdx) == C058List(data, start)
    {
      var info := BuildC058At(data, repeatIdx);
      ghost var rest := C058List(data, repeatIdx + 1);
      C058ListStep(data, repeatIdx);
      if info.Some? {
        assert infos + ([info.value] + rest) == (infos + [info.value]) + rest;
        infos := infos + [info.value];
      } else {
        assert [] + rest == rest;
      }
      repeatIdx := repeatIdx + 1;
    }
  }

  /** The C058 composites of a RAS segment, all 15 repetitions. */
  method BuildC058(data: Fields) returns (infos: seq<Fields>)
    ensures infos == C058List(data, 0)
  {
    infos := BuildC058From(data, 0);
  }

  // ------------------------------------------------------- C040 and C022

  /** A composite written as an object literal with conditional spreads:
      each slot contributes its key when it has a value. */
  function Entries(slots: seq<(string, Option<string>)>): Fields
    decreases |slots|
  {
    if slots == [] then [] else Entry(slots[0].0, slots[0].1) + Entries(slots[1..])
  }

  predicate SlotsDistinct(slots: seq<(string, Option<string>)>) {
    forall a, b :: 0 <= a < b < |slots| ==> slots[a].0 != slots[b].0
  }

  lemma {:induction false} EntriesMissing(slots: seq<(string, Option<string>)>, key: string)
    requires forall a :: 0 <= a < |slots| ==> slots[a].0 != key
    ensures Get(Entries(slots), key) == None
    decreases |slots|
  {
    if slots != [] {
      EntriesMissing(slots[1..], key);
      GetAppend(Entry(slots[0].0, slots[0].1), Entries(slots[1..]), key);
      EntryGet(slots[0].0, slots[0].1, key);
    }
  }

  /** With distinct slot keys, looking a slot's key up gives that slot's value
      (nothing when the slot is empty). */
  lemma {:induction false} EntriesGet(slots: seq<(string, Option<string>)>, i: nat)
    requires SlotsDistinct(slots)
    requires i < |slots|
    ensures Get(Entries(slots), slots[i].0) == slots[i].1
    decreases i
  {
    var key := slots[i].0;
    GetAppend(Entry(slots[0].0, slots[0].1), Entries(slots[1..]), key);
    EntryGet(slots[0].0, slots[0].1, key);
    if i == 0 {
      EntriesMissing(slots[1..], key);
    } else {
      EntriesGet(slots[1..], i - 1);
    }
  }

  /** The slots of the C040 composite of element `e`. */
  function C040Slots(data: Fields, e: string): seq<(string, Option<string>)> {
    [("1", Get(data, e)),
     ("2", Kept(data, e + "-1")), ("3", Kept(data, e + "-2")), ("4", Kept(data, e + "-3")),
     ("5", Kept(data, e + "-4")), ("6", Kept(data, e + "-5")),
     ("name", Some("C040"))]
  }

  /** The C040 composite of element `e` of an RDM or REF segment: present
      exactly when element `e` is truthy, with `e` as component 1 and each
      truthy `e-k` (k = 1..5) as component k + 1. */
  function C040Of(data: Fields, e: string): (sub: Option<Fields>)
    ensures sub.Some? <==> Truthy(Get(data, e))
    ensures sub.Some? ==>
      Get(sub.value, "1") == Get(data, e) &&
      Get(sub.value, "2") == Kept(data, e + "-1") &&
      Get(sub.value, "3") == Kept(data, e + "-2") &&
      Get(sub.value, "4") == Kept(data, e + "-3") &&
      Get(sub.value, "5") == Kept(data, e + "-4") &&
      Get(sub.value, "6") == Kept(data, e + "-5") &&
      Get(sub.value, "name") == Some("C040")
  {
    if !Truthy(Get(data, e)) then None
    else
      var slots := C040Slots(data, e);
      assert SlotsDistinct(slots);
      EntriesGet(slots, 0);
      EntriesGet(slots, 1);
      EntriesGet(slots, 2);
      EntriesGet(slots, 3);
      EntriesGet(slots, 4);
      EntriesGet(slots, 5);
      EntriesGet(slots, 6);
      Some(Entries(slots))
  }

  /** A later conditional spread of the same slot replaces an earlier one. */
  function Override(earlier: Option<string>, later: Option<string>): Option<string> {
    if later.Some? then later else earlier
  }

  /** The slots of the CLP element-11 composite. Slots 3 to 6 are filled
      from `11-2` to `11-5` and then overwritten by `11-6` to `11-9`;
      `11-10` overwrites slot 6 once more. */
  function C022Slots(data: Fields): seq<(string, Option<string>)> {
    [("1", Get(data, "11")),
     ("2", Get(data, "11-1")),
     ("3", Override(Kept(data, "11-2"), Kept(data, "11-6"))),
     ("4", Override(Kept(data, "11-3"), Kept(data, "11-7"))),
     ("5", Override(Kept(data, "11-4"), Kept(data, "11-8"))),
     ("6", Override(Override(Kept(data, "11-5"), Kept(data, "11-9")), Kept(data, "11-10"))),
     ("name", Some("C040"))]
  }

  /** The CLP element-11 composite written to the C022 table: present exactly
      when element 11 is truthy; slot 2 is `11-1` as it is, slots 3 to 6 hold
      the last truthy of their candidate keys. */
  function C022Of(data: Fields): (sub: Option<Fields>)
    ensures sub.Some? <==> Truthy(Get(data, "11"))
    ensures sub.Some? ==>
      Get(sub.value, "1") == Get(data, "11") &&
      Get(sub.value, "2") == Get(data, "11-1") &&
      Get(sub.value, "3") == (if Truthy(Get(data, "11-6")) then Get(data, "11-6") else Kept(data, "11-2")) &&
      Get(sub.value, "4") == (if Truthy(Get(data, "11-7")) then Get(data, "11-7") else Kept(data, "11-3")) &&
      Get(sub.value, "5") == (if Truthy(Get(data, "11-8")) then Get(data, "11-8") else Kept(data, "11-4")) &&
      Get(sub.value, "6") == (if Truthy(Get(data, "11-10")) then Get(data, "11-10")
                               else if Truthy(Get(data, "11-9")) then Get(data, "11-9")
                               else Kept(data, "11-5"))
  {
    if !Truthy(Get(data, "11")) then None
    else
      var slots := C022Slots(data);
      assert SlotsDistinct(slots);
      EntriesGet(slots, 0);
      EntriesGet(slots, 1);
      EntriesGet(slots, 2);
      EntriesGet(slots, 3);
      EntriesGet(slots, 4);
      EntriesGet(slots, 5);
      Some(Entries(slots))
  }
}
