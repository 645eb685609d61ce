/** The parser's per-segment loop: move the cursor when a segment opens a
    loop, number repeated segments, and hand the segment to the decoder of
    the current level, which writes rows through the insert functions and
    keeps the handles it needs in the running record. */
module Parser {
  import opened Wrappers
  import opened Sink
  import opened Records
  import opened LoopState

  /** One tokenized segment: its name and its elements keyed "1", "2", "3-1"
      and so on. */
  datatype Segment = Segment(name: string, data: Fields)

  /** One call of an insert function: the header row, a loop row with its
      ordinal and parent handle, or a segment with the table and handle of
      its parent and the segment order, where the function takes them. */
  datatype Call =
    | HeaderCall
    | LoopCall(table: Table, ordinal: Option<nat>, parentId: Option<RowId>)
    | SegmentCall(name: string, data: Fields, parentTable: Option<Table>, parentId: Option<RowId>, order: Option<nat>)

  /** The handle a call refers to, if any. */
  function Parent(c: Call): Option<RowId> {
    match c
    case HeaderCall => None
    case LoopCall(_, _, p) => p
    case SegmentCall(_, _, _, p, _) => p
  }

  /** The database behind the insert functions: every call made so far;
      each call's handle is its position. */
  class Store {
    var calls: seq<Call>

    constructor ()
      ensures calls == []
    {
      calls := [];
    }

    method Insert(c: Call) returns (id: RowId)
      modifies this
      ensures calls == old(calls) + [c]
      ensures id == |old(calls)|
    {
      id := |calls|;
      calls := calls + [c];
    }
  }

  /** What decoding one segment does: the new record and the calls made,
      the first of which gets handle `n`. */
  datatype Effect = Effect(info: StateInfo, calls: seq<Call>)

  function Order(s: StateInfo): Option<nat> {
    Some(s.currentSegmentOrder)
  }

  /** decodeHeading. */
  function HeadingStep(s: StateInfo, seg: Segment, n: RowId): Effect {
    var d := seg.data;
    match seg.name
    case "ISA" => Effect(s.(repeatingElementSeparator := Get(d, "11"), compositeElementSeparator := Get(d, "16")), [])
    case "ST" => Effect(s.(headerId := Some(n)), [HeaderCall, SegmentCall("ST", d, None, Some(n), None)])
    case "BPR" => Effect(s, [SegmentCall("BPR", d, None, s.headerId, None)])
    case "NTE" => Effect(s, [SegmentCall("NTE", d, None, s.headerId, Order(s))])
    case "TRN" => Effect(s, [SegmentCall("TRN", d, None, s.headerId, None)])
    case "CUR" => Effect(s, [SegmentCall("CUR", d, None, s.headerId, None)])
    case "REF" => Effect(s, [SegmentCall("REF", d, Some(HeaderTable), s.headerId, Order(s))])
    case "DTM" => Effect(s, [SegmentCall("DTM", d, Some(HeaderTable), s.headerId, Order(s))])
    case _ => Effect(s, [])
  }

  /** decode1000. */
  function Loop1000Step(s: StateInfo, seg: Segment, n: RowId): Effect {
    var d := seg.data;
    match seg.name
    case "N1" =>
      Effect(s.(loop1000Id := Some(n), n1Id := Some(n + 1)),
             [LoopCall(Loop1000Table, s.loop1000Idx, s.headerId), SegmentCall("N1", d, Some(Loop1000Table), Some(n), None)])
    case "N2" => Effect(s, [SegmentCall("N2", d, None, s.n1Id, Order(s))])
    case "N3" => Effect(s, [SegmentCall("N3", d, None, s.n1Id, Order(s))])
    case "N4" => Effect(s, [SegmentCall("N4", d, None, s.n1Id, Order(s))])
    case "REF" => Effect(s, [SegmentCall("REF", d, Some(Loop1000Table), s.loop1000Id, Order(s))])
    case "PER" => Effect(s, [SegmentCall("PER", d, Some(Loop1000Table), s.loop1000Id, Order(s))])
    case "RDM" => Effect(s, [SegmentCall("RDM", d, None, s.loop1000Id, None)])
    case "DTM" => Effect(s, [SegmentCall("DTM", d, Some(Loop1000Table), s.loop1000Id, Some(0))])
    case _ => Effect(s, [])
  }

  /** decode2000. */
  function Loop2000Step(s: StateInfo, seg: Segment, n: RowId): Effect {
    var d := seg.data;
    match seg.name
    case "LX" => Effect(s.(loop2000Id := Some(n)), [LoopCall(Loop2000Table, s.loop2000Idx, s.headerId)])
    case "TS3" => Effect(s, [SegmentCall("TS3", d, None, s.loop2000Id, None)])
    case "TS2" => Effect(s, [SegmentCall("TS2", d, None, s.loop2000Id, None)])
    case _ => Effect(s, [])
  }

  /** decode2100; RAS is recognised but its decoding is switched off. */
  function Loop2100Step(s: StateInfo, seg: Segment, n: RowId): Effect {
    var d := seg.data;
    match seg.name
    case "CLP" =>
      Effect(s.(loop2100Id := Some(n)),
             [LoopCall(Loop2100Table, s.loop2100Idx, s.loop2000Id), SegmentCall("CLP", d, None, Some(n), None)])
    case "CAS" => Effect(s, [SegmentCall("CAS", d, Some(Loop2100Table), s.loop2100Id, Order(s))])
    case _ => Effect(s, [])
  }

  /** The switch on the current level: 2105, 2110 and the summary have no
      decoder. */
  function Decoded(s: StateInfo, seg: Segment, n: RowId): Effect {
    match s.state
    case Heading => HeadingStep(s, seg, n)
    case Loop1000 => Loop1000Step(s, seg, n)
    case Loop2000 => Loop2000Step(s, seg, n)
    case Loop2100 => Loop2100Step(s, seg, n)
    case _ => Effect(s, [])
  }

  /** The decoders touch only handles and separators: the level, the
      indices and the segment-order cursor pass through. */
  lemma DecodedKeeps(s: StateInfo, seg: Segment, n: RowId)
    ensures var t := Decoded(s, seg, n).info;
      && t.state == s.state && t.currentSegmentOrder == s.currentSegmentOrder
      && t.prevSegmentName == s.prevSegmentName
      && t.loop1000Idx == s.loop1000Idx && t.loop2000Idx == s.loop2000Idx && t.loop2100Idx == s.loop2100Idx
      && t.loop2105Idx == s.loop2105Idx && t.loop2110Idx == s.loop2110Idx
  {
  }

  /** Adopting a transition: the new record starts a fresh run of segments
      and has no N1 handle. */
  function Adopt(s: StateInfo, name: string): StateInfo
    requires CanChange(s, name)
  {
    match ChangeState(s, name)
    case Some(o) => o.(prevSegmentName := None, currentSegmentOrder := 0, n1Id := None)
    case None => s
  }

  /** The segment-order cursor: one more than before for a repeat of the
      previous segment, 0 otherwise. */
  function Ordered(s: StateInfo, name: string): StateInfo {
    s.(currentSegmentOrder := if s.prevSegmentName == Some(name) then s.currentSegmentOrder + 1 else 0)
  }

  /** One pass of the loop body. */
  function Step(s: StateInfo, seg: Segment, n: RowId): Effect
    requires CanChange(s, seg.name)
  {
    var d := Decoded(Ordered(Adopt(s, seg.name), seg.name), seg, n);
    Effect(d.info.(prevSegmentName := Some(seg.name)), d.calls)
  }

  /** A loop body: what one segment does to the record and the calls it
      makes, defined where the body may run. */
  type Body = (StateInfo, Segment, RowId) --> Effect

  /** The body can run on every segment in turn. */
  ghost predicate Folds(body: Body, s: StateInfo, segs: seq<Segment>, n: RowId)
    decreases |segs|
  {
    segs == [] ||
    (body.requires(s, segs[0], n) &&
     var e := body(s, segs[0], n);
     Folds(body, e.info, segs[1..], n + |e.calls|))
  }

  /** The loop: the final record and every call made, the first of which
      gets handle `n`. */
  function Fold(body: Body, s: StateInfo, segs: seq<Segment>, n: RowId): Effect
    requires Folds(body, s, segs, n)
    decreases |segs|
  {
    if segs == [] then Effect(s, [])
    else
      var e := body(s, segs[0], n);
      var rest := Fold(body, e.info, segs[1..], n + |e.calls|);
      Effect(rest.info, e.calls + rest.calls)
  }

  /** The fold advanced by one segment: having made the calls `done` and
      reached `s` with `segs[i..]` still to go, the body run on `segs[i]`
      leaves the same final record and the same calls to make. */
  lemma FoldAdvance(body: Body, s: StateInfo, segs: seq<Segment>, i: nat, done: seq<Call>, total: Effect)
    requires i < |segs| && Folds(body, s, segs[i..], |done|)
    requires Fold(body, s, segs[i..], |done|).info == total.info
    requires done + Fold(body, s, segs[i..], |done|).calls == total.calls
    ensures body.requires(s, segs[i], |done|)
    ensures var e := body(s, segs[i], |done|);
      && Folds(body, e.info, segs[i + 1..], |done + e.calls|)
      && Fold(body, e.info, segs[i + 1..], |done + e.calls|).info == total.info
      && (done + e.calls) + Fold(body, e.info, segs[i + 1..], |done + e.calls|).calls == total.calls
  {
    assert segs[i..][0] == segs[i];
    assert segs[i..][1..] == segs[i + 1..];
    var e := body(s, segs[i], |done|);
    var rest := Fold(body, e.info, segs[i + 1..], |done| + |e.calls|);
    assert (done + e.calls) + rest.calls == done + (e.calls + rest.calls);
  }

  /** The segments never read an undefined index. */
  ghost predicate Parsable(s: StateInfo, segs: seq<Segment>, n: RowId) {
    Folds(Step, s, segs, n)
  }

  /** parseX12's loop over all segments. */
  function Run(s: StateInfo, segs: seq<Segment>, n: RowId): Effect
    requires Parsable(s, segs, n)
  {
    Fold(Step, s, segs, n)
  }

  // ------------------------------------------------------------ properties

  /** The segment-order cursor after a segment: one more than before when
      the segment repeats the previous one without opening a loop, 0
      otherwise; the segment then becomes the previous one. */
  lemma StepOrder(s: StateInfo, seg: Segment, n: RowId)
    requires CanChange(s, seg.name)
    ensures var t := Step(s, seg, n).info;
      && t.prevSegmentName == Some(seg.name)
      && t.state == Adopt(s, seg.name).state
      && t.currentSegmentOrder ==
           (if ChangeState(s, seg.name).None? && s.prevSegmentName == Some(seg.name)
            then s.currentSegmentOrder + 1 else 0)
  {
    DecodedKeeps(Ordered(Adopt(s, seg.name), seg.name), seg, n);
  }

  /** A run of `k` copies of a segment that opens no loop is numbered
      0, 1, 2, ... — or carries on from the previous segment's number when
      the run repeats it. */
  lemma {:induction false} RepeatedOrder(s: StateInfo, seg: Segment, k: nat, n: RowId)
    requires !Opens(seg.name)
    ensures Parsable(s, seq(k, _ => seg), n)
    ensures k > 0 ==>
      var t := Run(s, seq(k, _ => seg), n).info;
      && t.prevSegmentName == Some(seg.name)
      && t.currentSegmentOrder ==
           (if s.prevSegmentName == Some(seg.name) then s.currentSegmentOrder + k else k - 1)
    decreases k
  {
    if k > 0 {
      var segs := seq(k, _ => seg);
      ChangeStateNull(s, seg.name);
      StepOrder(s, seg, n);
      var e := Step(s, seg, n);
      assert segs[0] == seg;
      assert segs[1..] == seq(k - 1, _ => seg);
      RepeatedOrder(e.info, seg, k - 1, n + |e.calls|);
      assert Run(s, segs, n).info == Run(e.info, segs[1..], n + |e.calls|).info;
    }
  }

  /** A handle that is undefined or names a row written before position `n`. */
  predicate Below(h: Option<RowId>, n: RowId) {
    h.None? || h.value < n
  }

  /** Every handle the record holds names a row already written. */
  predicate HandlesBelow(s: StateInfo, n: RowId) {
    && Below(s.headerId, n) && Below(s.loop1000Id, n) && Below(s.loop2000Id, n)
    && Below(s.loop2100Id, n) && Below(s.loop2105Id, n) && Below(s.loop2110Id, n)
    && Below(s.n1Id, n)
  }

  /** Each call, made at position `n + j`, refers to a row written before it. */
  predicate RefersBack(calls: seq<Call>, n: RowId) {
    forall j :: 0 <= j < |calls| ==> Below(Parent(calls[j]), n + j)
  }

  /** The handles of a record stay below a later position. */
  lemma HandlesLater(s: StateInfo, n: RowId, m: RowId)
    requires HandlesBelow(s, n) && n <= m
    ensures HandlesBelow(s, m)
  {
  }

  /** Calls that each refer backwards, made one after the other, still do. */
  lemma RefersBackConcat(a: seq<Call>, b: seq<Call>, n: RowId)
    requires RefersBack(a, n) && RefersBack(b, n + |a|)
    ensures RefersBack(a + b, n)
  {
    forall j | 0 <= j < |a + b|
      ensures Below(Parent((a + b)[j]), n + j)
    {
      if j >= |a| {
        assert (a + b)[j] == b[j - |a|];
      }
    }
  }

  /** Each call other than the header row, made at position `n + j`, has a
      defined parent, and that parent is a row written before it. */
  predicate Anchored(calls: seq<Call>, n: RowId) {
    forall j :: 0 <= j < |calls| && !calls[j].HeaderCall? ==>
      Parent(calls[j]).Some? && Parent(calls[j]).value < n + j
  }

  lemma AnchoredConcat(a: seq<Call>, b: seq<Call>, n: RowId)
    requires Anchored(a, n) && Anchored(b, n + |a|)
    ensures Anchored(a + b, n)
  {
    forall j | 0 <= j < |a + b| && !(a + b)[j].HeaderCall?
      ensures Parent((a + b)[j]).Some? && Parent((a + b)[j]).value < n + j
    {
      if j >= |a| {
        assert (a + b)[j] == b[j - |a|];
      }
    }
  }

  /** The segments decodeHeading writes under the header row. */
  predicate HeadingInsert(name: string) {
    name in {"BPR", "NTE", "TRN", "CUR", "REF", "DTM"}
  }

  /** The handle decodeHeading reads as the segment's parent is defined. */
  predicate HeadingNeeds(s: StateInfo, name: string) {
    HeadingInsert(name) ==> s.headerId.Some?
  }

  /** The handle decode1000 reads as the segment's parent is defined. */
  predicate Loop1000Needs(s: StateInfo, name: string) {
    && (name == "N1" ==> s.headerId.Some?)
    && (name in {"N2", "N3", "N4"} ==> s.n1Id.Some?)
    && (name in {"REF", "PER", "RDM", "DTM"} ==> s.loop1000Id.Some?)
  }

  /** The handle decode2000 reads as the segment's parent is defined. */
  predicate Loop2000Needs(s: StateInfo, name: string) {
    && (name == "LX" ==> s.headerId.Some?)
    && (name in {"TS3", "TS2"} ==> s.loop2000Id.Some?)
  }

  /** The handle decode2100 reads as the segment's parent is defined. */
  predicate Loop2100Needs(s: StateInfo, name: string) {
    && (name == "CLP" ==> s.loop2000Id.Some?)
    && (name == "CAS" ==> s.loop2100Id.Some?)
  }

  /** The handle the decoder of the current level reads is defined. */
  predicate Needs(s: StateInfo, name: string) {
    match s.state
    case Heading => HeadingNeeds(s, name)
    case Loop1000 => Loop1000Needs(s, name)
    case Loop2000 => Loop2000Needs(s, name)
    case Loop2100 => Loop2100Needs(s, name)
    case _ => true
  }

  /** decodeHeading writes rows that refer backwards, and its handles name
      rows it has written. */
  lemma HeadingRefersBack(s: StateInfo, seg: Segment, n: RowId)
    requires HandlesBelow(s, n)
    ensures var e := HeadingStep(s, seg, n);
      RefersBack(e.calls, n) && HandlesBelow(e.info, n + |e.calls|)
    ensures Anchored(HeadingStep(s, seg, n).calls, n) <==> HeadingNeeds(s, seg.name)
  {
    HandlesLater(s, n, n + |HeadingStep(s, seg, n).calls|);
    if !HeadingNeeds(s, seg.name) {
      assert Parent(HeadingStep(s, seg, n).calls[0]).None?;
    }
  }

  /** decode1000: every parent is undefined or earlier, and defined exactly
      when the handle it reads is; the N1 row's parent is the loop row
      written just before it. */
  lemma Loop1000RefersBack(s: StateInfo, seg: Segment, n: RowId)
    requires HandlesBelow(s, n)
    ensures var e := Loop1000Step(s, seg, n);
      RefersBack(e.calls, n) && HandlesBelow(e.info, n + |e.calls|)
    ensures Anchored(Loop1000Step(s, seg, n).calls, n) <==> Loop1000Needs(s, seg.name)
    ensures seg.name == "N1" ==> var e := Loop1000Step(s, seg, n);
      |e.calls| == 2 && e.calls[0].LoopCall? && e.calls[0].table == Loop1000Table && Parent(e.calls[1]) == Some(n)
  {
    HandlesLater(s, n, n + |Loop1000Step(s, seg, n).calls|);
    if !Loop1000Needs(s, seg.name) {
      assert Parent(Loop1000Step(s, seg, n).calls[0]).None?;
    }
  }

  /** decode2000: every parent is undefined or earlier, and defined exactly
      when the handle it reads is. */
  lemma Loop2000RefersBack(s: StateInfo, seg: Segment, n: RowId)
    requires HandlesBelow(s, n)
    ensures var e := Loop2000Step(s, seg, n);
      RefersBack(e.calls, n) && HandlesBelow(e.info, n + |e.calls|)
    ensures Anchored(Loop2000Step(s, seg, n).calls, n) <==> Loop2000Needs(s, seg.name)
  {
    HandlesLater(s, n, n + |Loop2000Step(s, seg, n).calls|);
    if !Loop2000Needs(s, seg.name) {
      assert Parent(Loop2000Step(s, seg, n).calls[0]).None?;
    }
  }

  /** decode2100: every parent is undefined or earlier, and defined exactly
      when the handle it reads is; the CLP row's parent is the loop row
      written just before it. */
  lemma Loop2100RefersBack(s: StateInfo, seg: Segment, n: RowId)
    requires HandlesBelow(s, n)
    ensures var e := Loop2100Step(s, seg, n);
      RefersBack(e.calls, n) && HandlesBelow(e.info, n + |e.calls|)
    ensures Anchored(Loop2100Step(s, seg, n).calls, n) <==> Loop2100Needs(s, seg.name)
    ensures seg.name == "CLP" ==> var e := Loop2100Step(s, seg, n);
      |e.calls| == 2 && e.calls[0].LoopCall? && e.calls[0].table == Loop2100Table && Parent(e.calls[1]) == Some(n)
  {
    HandlesLater(s, n, n + |Loop2100Step(s, seg, n).calls|);
    if !Loop2100Needs(s, seg.name) {
      assert Parent(Loop2100Step(s, seg, n).calls[0]).None?;
    }
  }

  /** One segment keeps the handles pointing backwards: each parent it
      writes is undefined or names a row already written, and every parent
      is defined exactly when the handle the decoder reads is; the handles
      it keeps name rows already written. */
  lemma StepRefersBack(s: StateInfo, seg: Segment, n: RowId)
    requires CanChange(s, seg.name) && HandlesBelow(s, n)
    ensures var e := Step(s, seg, n);
      RefersBack(e.calls, n) && HandlesBelow(e.info, n + |e.calls|)
    ensures Anchored(Step(s, seg, n).calls, n) <==> Needs(Adopt(s, seg.name), seg.name)
  {
    var a := Ordered(Adopt(s, seg.name), seg.name);
    if ChangeState(s, seg.name).Some? {
      ChangeStateKeeps(s, seg.name);
    }
    assert HandlesBelow(a, n);
    assert Needs(a, seg.name) == Needs(Adopt(s, seg.name), seg.name);
    assert Step(s, seg, n).calls == Decoded(a, seg, n).calls;
    match a.state {
      case Heading => HeadingRefersBack(a, seg, n);
      case Loop1000 => Loop1000RefersBack(a, seg, n);
      case Loop2000 => Loop2000RefersBack(a, seg, n);
      case Loop2100 => Loop2100RefersBack(a, seg, n);
      case _ =>
    }
  }

  /** A body that writes only rows referring backwards and keeps only
      handles of rows already written. */
  ghost predicate KeepsBack(body: Body) {
    forall t: StateInfo, seg: Segment, m: RowId | body.requires(t, seg, m) && HandlesBelow(t, m) ::
      RefersBack(body(t, seg, m).calls, m) && HandlesBelow(body(t, seg, m).info, m + |body(t, seg, m).calls|)
  }

  /** Folding such a body keeps every call referring backwards. */
  lemma {:induction false} FoldRefersBack(body: Body, s: StateInfo, segs: seq<Segment>, n: RowId)
    requires KeepsBack(body) && Folds(body, s, segs, n) && HandlesBelow(s, n)
    ensures var r := Fold(body, s, segs, n);
      RefersBack(r.calls, n) && HandlesBelow(r.info, n + |r.calls|)
    decreases |segs|
  {
    if segs != [] {
      var e := body(s, segs[0], n);
      var m := n + |e.calls|;
      FoldRefersBack(body, e.info, segs[1..], m);
      RefersBackConcat(e.calls, Fold(body, e.info, segs[1..], m).calls, n);
    }
  }

  /** Over the whole loop no insert refers forwards: each parent handle is
      undefined or names a row inserted earlier. */
  lemma RunRefersBack(s: StateInfo, segs: seq<Segment>, n: RowId)
    requires Parsable(s, segs, n) && HandlesBelow(s, n)
    ensures var r := Run(s, segs, n);
      RefersBack(r.calls, n) && HandlesBelow(r.info, n + |r.calls|)
  {
    forall t: StateInfo, seg: Segment, m: RowId | CanChange(t, seg.name) && HandlesBelow(t, m)
      ensures RefersBack(Step(t, seg, m).calls, m) && HandlesBelow(Step(t, seg, m).info, m + |Step(t, seg, m).calls|)
    {
      StepRefersBack(t, seg, m);
    }
    FoldRefersBack(Step, s, segs, n);
  }

  /** The levels without a decoder write nothing; in the heading, ISA only
      records the separators and ST writes the header row and then the ST
      row that refers to it. */
  lemma StepDispatch(s: StateInfo, seg: Segment, n: RowId)
    requires CanChange(s, seg.name)
    ensures Adopt(s, seg.name).state in {Loop2105, Loop2110, Summary} ==> Step(s, seg, n).calls == []
    ensures Adopt(s, seg.name).state == Heading && seg.name == "ISA" ==>
      var t := Step(s, seg, n);
      && t.calls == []
      && t.info.repeatingElementSeparator == Get(seg.data, "11")
      && t.info.compositeElementSeparator == Get(seg.data, "16")
    ensures Adopt(s, seg.name).state == Heading && seg.name == "ST" ==>
      var t := Step(s, seg, n);
      && t.calls == [HeaderCall, SegmentCall("ST", seg.data, None, Some(n), None)]
      && t.info.headerId == Some(n)
  {
  }

  /** N1 in loop 1000 writes the loop row under the header and then the N1
      row that refers to it, and keeps both handles. */
  lemma StepN1(s: StateInfo, seg: Segment, n: RowId)
    requires seg.name == "N1" && CanChange(s, seg.name)
    requires Adopt(s, seg.name).state == Loop1000
    ensures var t := Step(s, seg, n);
      && t.calls == [LoopCall(Loop1000Table, Adopt(s, seg.name).loop1000Idx, s.headerId),
                     SegmentCall("N1", seg.data, Some(Loop1000Table), Some(n), None)]
      && t.info.loop1000Id == Some(n) && t.info.n1Id == Some(n + 1)
  {
    ChangeStateKeeps(s, seg.name);
  }

  /** Meeting each opening segment where the source expects it keeps the
      indices coherent and never reads an undefined one. */
  lemma StepCoherent(s: StateInfo, seg: Segment, n: RowId)
    requires Coherent(s) && Expected(s, seg.name)
    ensures CanChange(s, seg.name) && Coherent(Step(s, seg, n).info)
  {
    ExpectedTransition(s, seg.name);
    DecodedKeeps(Ordered(Adopt(s, seg.name), seg.name), seg, n);
  }

  /** CLP in loop 2100 writes the loop row under the 2000 loop and then the
      CLP row that refers to it, and keeps the loop row's handle. */
  lemma StepCLP(s: StateInfo, seg: Segment, n: RowId)
    requires seg.name == "CLP" && CanChange(s, seg.name)
    ensures var t := Step(s, seg, n);
      && t.calls == [LoopCall(Loop2100Table, Adopt(s, seg.name).loop2100Idx, s.loop2000Id),
                     SegmentCall("CLP", seg.data, None, Some(n), None)]
      && t.info.loop2100Id == Some(n)
  {
    CLPTransition(s);
    ChangeStateKeeps(s, seg.name);
  }

  /** The token stream from `s` on meets every opening segment where the
      source expects it. */
  ghost predicate ExpectedAll(s: StateInfo, segs: seq<Segment>, n: RowId)
    decreases |segs|
  {
    segs == [] ||
    (Expected(s, segs[0].name) &&
     (CanChange(s, segs[0].name) ==>
        var e := Step(s, segs[0], n);
        ExpectedAll(e.info, segs[1..], n + |e.calls|)))
  }

  /** From a coherent record, a stream that meets every opening segment where
      the source expects it never reads an undefined index. */
  lemma {:induction false} ExpectedParsable(s: StateInfo, segs: seq<Segment>, n: RowId)
    requires Coherent(s) && ExpectedAll(s, segs, n)
    ensures Parsable(s, segs, n)
    decreases |segs|
  {
    if segs != [] {
      StepCoherent(s, segs[0], n);
      var e := Step(s, segs[0], n);
      ExpectedParsable(e.info, segs[1..], n + |e.calls|);
    }
  }

  /** The handles of the loops the cursor is in are defined: the header
      once the heading is left, the 1000 loop row and its N1 row in loop
      1000, the 2000 loop row inside loop 2000, and the claim row inside a
      claim. */
  predicate Grounded(s: StateInfo) {
    && (s.state != Heading ==> s.headerId.Some?)
    && (s.state == Loop1000 ==> s.loop1000Id.Some? && s.n1Id.Some?)
    && (s.state in {Loop2000, Loop2100, Loop2105, Loop2110} ==> s.loop2000Id.Some?)
    && (s.state in {Loop2100, Loop2105, Loop2110} ==> s.loop2100Id.Some?)
  }

  /** A segment in its place: an opening segment where the source expects
      it, and, until ST has written the header, nothing that writes a row or
      opens a loop. */
  predicate Placed(s: StateInfo, name: string) {
    && Expected(s, name)
    && (s.headerId.None? ==> !Opens(name) && !HeadingInsert(name))
  }

  /** A segment in its place reads only defined indices and handles, and
      keeps the record coherent and grounded. */
  lemma StepGrounded(s: StateInfo, seg: Segment, n: RowId)
    requires Coherent(s) && Grounded(s) && Placed(s, seg.name)
    ensures CanChange(s, seg.name)
    ensures Needs(Adopt(s, seg.name), seg.name)
    ensures Coherent(Step(s, seg, n).info) && Grounded(Step(s, seg, n).info)
  {
    StepCoherent(s, seg, n);
    var a := Ordered(Adopt(s, seg.name), seg.name);
    if ChangeState(s, seg.name).Some? {
      ChangeStateKeeps(s, seg.name);
    }
    DecodedKeeps(a, seg, n);
  }

  /** A segment in its place writes only rows with a defined, earlier
      parent, and leaves a coherent, grounded record whose handles name rows
      already written. */
  lemma StepAnchored(s: StateInfo, seg: Segment, n: RowId)
    requires Coherent(s) && Grounded(s) && HandlesBelow(s, n) && Placed(s, seg.name)
    ensures CanChange(s, seg.name)
    ensures var e := Step(s, seg, n);
      && Anchored(e.calls, n) && HandlesBelow(e.info, n + |e.calls|)
      && Coherent(e.info) && Grounded(e.info)
  {
    StepGrounded(s, seg, n);
    StepRefersBack(s, seg, n);
  }

  /** The token stream from `s` on has every segment in its place. */
  ghost predicate PlacedAll(s: StateInfo, segs: seq<Segment>, n: RowId)
    decreases |segs|
  {
    segs == [] ||
    (Placed(s, segs[0].name) &&
     (CanChange(s, segs[0].name) ==>
        var e := Step(s, segs[0], n);
        PlacedAll(e.info, segs[1..], n + |e.calls|)))
  }

  /** From a coherent, grounded record, a stream with every segment in its
      place can be parsed, and every row it writes other than the header
      has a defined parent that was written before it. */
  lemma {:induction false} RunAnchored(s: StateInfo, segs: seq<Segment>, n: RowId)
    requires Coherent(s) && Grounded(s) && HandlesBelow(s, n) && PlacedAll(s, segs, n)
    ensures Parsable(s, segs, n)
    ensures Anchored(Run(s, segs, n).calls, n)
    decreases |segs|
  {
    if segs != [] {
      StepAnchored(s, segs[0], n);
      var e := Step(s, segs[0], n);
      var m := n + |e.calls|;
      RunAnchored(e.info, segs[1..], m);
      assert Parsable(s, segs, n);
      assert Run(s, segs, n).calls == e.calls + Run(e.info, segs[1..], m).calls;
      AnchoredConcat(e.calls, Run(e.info, segs[1..], m).calls, n);
    }
  }

  /** parseX12 from its initial record: a file with every segment in its
      place is parsed without reading an undefined index, and each row it
      writes other than the header refers to a row written before it. */
  lemma ParseAnchored(segs: seq<Segment>, n: RowId)
    requires PlacedAll(Initial(), segs, n)
    ensures Parsable(Initial(), segs, n)
    ensures Anchored(Run(Initial(), segs, n).calls, n)
  {
    RunAnchored(Initial(), segs, n);
  }

  // ------------------------------------------------------------ the loop

  /** decodeHeading, writing the handles into the returned record. */
  method DecodeHeading(store: Store, seg: Segment, s: StateInfo) returns (t: StateInfo)
    modifies store
    ensures t == HeadingStep(s, seg, |old(store.calls)|).info
    ensures store.calls == old(store.calls) + HeadingStep(s, seg, |old(store.calls)|).calls
  {
    t := s;
    var d := seg.data;
    match seg.name
    case "ISA" =>
      t := t.(repeatingElementSeparator := Get(d, "11"), compositeElementSeparator := Get(d, "16"));
    case "ST" =>
      var h := store.Insert(HeaderCall);
      t := t.(headerId := Some(h));
      var id := store.Insert(SegmentCall("ST", d, None, t.headerId, None));
    case "BPR" =>
      var id := store.Insert(SegmentCall("BPR", d, None, t.headerId, None));
    case "NTE" =>
      var id := store.Insert(SegmentCall("NTE", d, None, t.headerId, Some(t.currentSegmentOrder)));
    case "TRN" =>
      var id := store.Insert(SegmentCall("TRN", d, None, t.headerId, None));
    case "CUR" =>
      var id := store.Insert(SegmentCall("CUR", d, None, t.headerId, None));
    case "REF" =>
      var id := store.Insert(SegmentCall("REF", d, Some(HeaderTable), t.headerId, Some(t.currentSegmentOrder)));
    case "DTM" =>
      var id := store.Insert(SegmentCall("DTM", d, Some(HeaderTable), t.headerId, Some(t.currentSegmentOrder)));
    case _ =>
  }

  /** decode1000. */
  method Decode1000(store: Store, seg: Segment, s: StateInfo) returns (t: StateInfo)
    modifies store
    ensures t == Loop1000Step(s, seg, |old(store.calls)|).info
    ensures store.calls == old(store.calls) + Loop1000Step(s, seg, |old(store.calls)|).calls
  {
    t := s;
    var d := seg.data;
    match seg.name
    case "N1" =>
      var l := store.Insert(LoopCall(Loop1000Table, t.loop1000Idx, t.headerId));
      t := t.(loop1000Id := Some(l));
      var n1 := store.Insert(SegmentCall("N1", d, Some(Loop1000Table), t.loop1000Id, None));
      t := t.(n1Id := Some(n1));
    case "N2" =>
      var id := store.Insert(SegmentCall("N2", d, None, t.n1Id, Some(t.currentSegmentOrder)));
    case "N3" =>
      var id := store.Insert(SegmentCall("N3", d, None, t.n1Id, Some(t.currentSegmentOrder)));
    case "N4" =>
      var id := store.Insert(SegmentCall("N4", d, None, t.n1Id, Some(t.currentSegmentOrder)));
    case "REF" =>
      var id := store.Insert(SegmentCall("REF", d, Some(Loop1000Table), t.loop1000Id, Some(t.currentSegmentOrder)));
    case "PER" =>
      var id := store.Insert(SegmentCall("PER", d, Some(Loop1000Table), t.loop1000Id, Some(t.currentSegmentOrder)));
    case "RDM" =>
      var id := store.Insert(SegmentCall("RDM", d, None, t.loop1000Id, None));
    case "DTM" =>
      var id := store.Insert(SegmentCall("DTM", d, Some(Loop1000Table), t.loop1000Id, Some(0)));
    case _ =>
  }

  /** decode2000. */
  method Decode2000(store: Store, seg: Segment, s: StateInfo) returns (t: StateInfo)
    modifies store
    ensures t == Loop2000Step(s, seg, |old(store.calls)|).info
    ensures store.calls == old(store.calls) + Loop2000Step(s, seg, |old(store.calls)|).calls
  {
    t := s;
    var d := seg.data;
    match seg.name
    case "LX" =>
      var l := store.Insert(LoopCall(Loop2000Table, t.loop2000Idx, t.headerId));
      t := t.(loop2000Id := Some(l));
    case "TS3" =>
      var id := store.Insert(SegmentCall("TS3", d, None, t.loop2000Id, None));
    case "TS2" =>
      var id := store.Insert(SegmentCall("TS2", d, None, t.loop2000Id, None));
    case _ =>
  }

  /** decode2100. */
  method Decode2100(store: Store, seg: Segment, s: StateInfo) returns (t: StateInfo)
    modifies store
    ensures t == Loop2100Step(s, seg, |old(store.calls)|).info
    ensures store.calls == old(store.calls) + Loop2100Step(s, seg, |old(store.calls)|).calls
  {
    t := s;
    var d := seg.data;
    match seg.name
    case "CLP" =>
      var l := store.Insert(LoopCall(Loop2100Table, t.loop2100Idx, t.loop2000Id));
      t := t.(loop2100Id := Some(l));
      var id := store.Insert(SegmentCall("CLP", d, None, t.loop2100Id, None));
    case "CAS" =>
      var id := store.Insert(SegmentCall("CAS", d, Some(Loop2100Table), t.loop2100Id, Some(t.currentSegmentOrder)));
    case _ =>
  }

  /** One pass of parseX12's loop body over `current`. */
  method ParseSegment(store: Store, seg: Segment, s: StateInfo) returns (current: StateInfo)
    requires CanChange(s, seg.name)
    modifies store
    ensures current == Step(s, seg, |old(store.calls)|).info
    ensures store.calls == old(store.calls) + Step(s, seg, |old(store.calls)|).calls
  {
    current := s;
    var output := ChangeState(current, seg.name);
    if output.Some? {
      current := output.value.(prevSegmentName := None, currentSegmentOrder := 0, n1Id := None);
    }
    if current.prevSegmentName == Some(seg.name) {
      current := current.(currentSegmentOrder := current.currentSegmentOrder + 1);
    } else {
      current := current.(currentSegmentOrder := 0);
    }
    match current.state {
      case Heading => current := DecodeHeading(store, seg, current);
      case Loop1000 => current := Decode1000(store, seg, current);
      case Loop2000 => current := Decode2000(store, seg, current);
      case Loop2100 => current := Decode2100(store, seg, current);
      case _ =>
    }
    current := current.(prevSegmentName := Some(seg.name));
  }

  /** parseX12's loop over the token stream `segs`, from the record `s`:
      the final record and every call made are those of the fold. */
  method ParseFrom(store: Store, s: StateInfo, segs: seq<Segment>) returns (current: StateInfo)
    requires Parsable(s, segs, |store.calls|)
    modifies store
    ensures current == Run(s, segs, |old(store.calls)|).info
    ensures store.calls == old(store.calls) + Run(s, segs, |old(store.calls)|).calls
  {
    ghost var whole := Run(s, segs, |store.calls|);
    ghost var goal := Effect(whole.info, store.calls + whole.calls);
    current := s;
    var i := 0;
    while i < |segs|
      invariant 0 <= i <= |segs|
      invariant Parsable(current, segs[i..], |store.calls|)
      invariant Run(current, segs[i..], |store.calls|).info == goal.info
      invariant store.calls + Run(current, segs[i..], |store.calls|).calls == goal.calls
    {
      FoldAdvance(Step, current, segs, i, store.calls, goal);
      current := ParseSegment(store, segs[i], current);
      i := i + 1;
    }
  }

  /** parseX12: the loop from the initial record. */
  method ParseX12(store: Store, segs: seq<Segment>) returns (current: StateInfo)
    requires Parsable(Initial(), segs, |store.calls|)
    modifies store
    ensures current == Run(Initial(), segs, |old(store.calls)|).info
    ensures store.calls == old(store.calls) + Run(Initial(), segs, |old(store.calls)|).calls
  {
    current := ParseFrom(store, Initial(), segs);
  }
}
