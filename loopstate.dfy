/** The parser's cursor through the loop structure of an X12 835
    (005010X221A1) transaction, and the transition function that moves it
    when a segment opens a new loop. */
module LoopState {
  import opened Wrappers
  import opened Sink

  /** The loop levels, in document order. */
  datatype State = Heading | Loop1000 | Loop2000 | Loop2100 | Loop2105 | Loop2110 | Summary

  /** The running record the parser threads through the segments: the
      current level, the ordinal of the current instance of each loop, the
      handles of the rows written for the current loops, the separators read
      from ISA, and the segment-order cursor. Undefined fields are `None`. */
  datatype StateInfo = StateInfo(
    state: State,
    loop1000Idx: Option<nat>,
    loop2000Idx: Option<nat>,
    loop2100Idx: Option<nat>,
    loop2105Idx: Option<nat>,
    loop2110Idx: Option<nat>,
    headerId: Option<RowId>,
    loop1000Id: Option<RowId>,
    loop2000Id: Option<RowId>,
    loop2100Id: Option<RowId>,
    loop2105Id: Option<RowId>,
    loop2110Id: Option<RowId>,
    n1Id: Option<RowId>,
    prevSegmentName: Option<string>,
    currentSegmentOrder: nat,
    repeatingElementSeparator: Option<string>,
    compositeElementSeparator: Option<string>)

  /** The record the parser starts from: the heading, with the usual
      separators until ISA names the real ones. */
  function Initial(): (s: StateInfo)
    ensures s.state == Heading && s.currentSegmentOrder == 0 && s.prevSegmentName == None
    ensures s.repeatingElementSeparator == Some("^") && s.compositeElementSeparator == Some(":")
    ensures && s.loop1000Idx.None? && s.loop2000Idx.None? && s.loop2100Idx.None?
            && s.loop2105Idx.None? && s.loop2110Idx.None?
    ensures && s.headerId.None? && s.loop1000Id.None? && s.loop2000Id.None? && s.loop2100Id.None?
            && s.loop2105Id.None? && s.loop2110Id.None? && s.n1Id.None?
    ensures Coherent(s)
  {
    StateInfo(Heading, None, None, None, None, None, None, None, None, None, None, None, None,
              None, 0, Some("^"), Some(":"))
  }

  /** The segment names that can move the cursor. */
  predicate Opens(name: string) {
    name == "N1" || name == "LX" || name == "CLP" || name == "SVC" || name == "PLB" || name == "SE"
  }

  /** The transition reads an index with a non-null assertion (`idx! + 1`)
      exactly in these cases; a well-formed file always has it defined
      there. */
  predicate CanChange(s: StateInfo, name: string) {
    && (name == "N1" && s.state == Loop1000 ==> s.loop1000Idx.Some?)
    && (name == "N1" && s.state !in {Heading, Loop1000, Loop2100} ==> s.loop2105Idx.Some?)
    && (name == "LX" && s.state !in {Heading, Loop1000} ==> s.loop2000Idx.Some?)
    && (name == "CLP" && s.state != Loop2000 ==> s.loop2100Idx.Some?)
    && (name == "SVC" && s.state == Loop2110 ==> s.loop2110Idx.Some?)
  }

  function Inc(i: Option<nat>): Option<nat>
    requires i.Some?
  {
    Some(i.value + 1)
  }

  /** changeState: the record for the level a segment opens, or None when
      the segment does not change the level. */
  function ChangeState(s: StateInfo, name: string): Option<StateInfo>
    requires CanChange(s, name)
  {
    if name == "N1" then
      match s.state
      case Heading => Some(s.(state := Loop1000, loop1000Idx := Some(0)))
      case Loop1000 => Some(s.(loop1000Idx := Inc(s.loop1000Idx)))
      case Loop2100 => Some(s.(state := Loop2105, loop2105Idx := Some(0)))
      case _ => Some(s.(loop2105Idx := Inc(s.loop2105Idx)))
    else if name == "LX" then
      if s.state == Heading || s.state == Loop1000 then Some(s.(state := Loop2000, loop2000Idx := Some(0)))
      else Some(s.(state := Loop2000, loop2000Idx := Inc(s.loop2000Idx),
                   loop2100Idx := None, loop2105Idx := None, loop2110Idx := None))
    else if name == "CLP" then
      if s.state == Loop2000 then Some(s.(state := Loop2100, loop2100Idx := Some(0)))
      else Some(s.(state := Loop2100, loop2100Idx := Inc(s.loop2100Idx),
                   loop2105Idx := None, loop2110Idx := None))
    else if name == "SVC" then
      if s.state == Loop2110 then Some(s.(loop2110Idx := Inc(s.loop2110Idx)))
      else Some(s.(state := Loop2110, loop2110Idx := Some(0)))
    else if name == "PLB" then Some(s.(state := Summary))
    else if name == "SE" then
      if s.state == Summary then None else Some(s.(state := Summary))
    else None
  }

  /** Only N1, LX, CLP, SVC, PLB and SE move the cursor, and SE does not
      move it once the summary is reached. */
  lemma ChangeStateNull(s: StateInfo, name: string)
    requires CanChange(s, name)
    ensures ChangeState(s, name).None? <==> !Opens(name) || (name == "SE" && s.state == Summary)
  {
  }

  /** A transition builds a new record by copying the old one: the handles,
      separators, previous segment name and segment order are always carried
      over, and so is every index the transition does not name. */
  lemma ChangeStateKeeps(s: StateInfo, name: string)
    requires CanChange(s, name)
    requires ChangeState(s, name).Some?
    ensures var t := ChangeState(s, name).value;
      && t.headerId == s.headerId && t.loop1000Id == s.loop1000Id && t.loop2000Id == s.loop2000Id
      && t.loop2100Id == s.loop2100Id && t.loop2105Id == s.loop2105Id && t.loop2110Id == s.loop2110Id
      && t.n1Id == s.n1Id && t.prevSegmentName == s.prevSegmentName
      && t.currentSegmentOrder == s.currentSegmentOrder
      && t.repeatingElementSeparator == s.repeatingElementSeparator
      && t.compositeElementSeparator == s.compositeElementSeparator
      && (name != "N1" ==> t.loop1000Idx == s.loop1000Idx)
      && (name != "LX" && name != "CLP" && name != "N1" ==> t.loop2105Idx == s.loop2105Idx)
      && (name != "LX" && name != "CLP" && name != "SVC" ==> t.loop2110Idx == s.loop2110Idx)
      && (name != "LX" ==> t.loop2000Idx == s.loop2000Idx)
      && (name != "LX" && name != "CLP" ==> t.loop2100Idx == s.loop2100Idx)
  {
  }

  /** N1 opens the payer loop from the heading, the next payer/payee loop
      from loop 1000, and a service-provider loop 2105 from a claim; in any
      other level it counts another 2105 instance. */
  lemma N1Transition(s: StateInfo)
    requires CanChange(s, "N1")
    ensures var t := ChangeState(s, "N1").value;
      && (s.state == Heading ==> t.state == Loop1000 && t.loop1000Idx == Some(0))
      && (s.state == Loop1000 ==> t.state == Loop1000 && t.loop1000Idx == Some(s.loop1000Idx.value + 1))
      && (s.state == Loop2100 ==> t.state == Loop2105 && t.loop2105Idx == Some(0))
      && (s.state !in {Heading, Loop1000, Loop2100} ==>
            t.state == s.state && t.loop2105Idx == Some(s.loop2105Idx.value + 1))
  {
  }

  /** LX opens the first 2000 loop from the heading or loop 1000, and the
      next one from anywhere else, closing the claim and service loops. */
  lemma LXTransition(s: StateInfo)
    requires CanChange(s, "LX")
    ensures var t := ChangeState(s, "LX").value;
      && t.state == Loop2000
      && (s.state in {Heading, Loop1000} ==> t.loop2000Idx == Some(0))
      && (s.state !in {Heading, Loop1000} ==>
            t.loop2000Idx == Some(s.loop2000Idx.value + 1) &&
            t.loop2100Idx == None && t.loop2105Idx == None && t.loop2110Idx == None)
  {
  }

  /** CLP opens the first claim of a 2000 loop, and the next claim from a
      claim or service level, closing the 2105 and 2110 loops. */
  lemma CLPTransition(s: StateInfo)
    requires CanChange(s, "CLP")
    ensures var t := ChangeState(s, "CLP").value;
      && t.state == Loop2100
      && (s.state == Loop2000 ==> t.loop2100Idx == Some(0))
      && (s.state != Loop2000 ==>
            t.loop2100Idx == Some(s.loop2100Idx.value + 1) && t.loop2105Idx == None && t.loop2110Idx == None)
  {
  }

  /** SVC counts another service line inside loop 2110 and opens the first
      one from anywhere else. */
  lemma SVCTransition(s: StateInfo)
    requires CanChange(s, "SVC")
    ensures var t := ChangeState(s, "SVC").value;
      && t.state == Loop2110
      && t.loop2110Idx == if s.state == Loop2110 then Some(s.loop2110Idx.value + 1) else Some(0)
  {
  }

  /** PLB always yields the summary, even from the summary; SE yields it
      from every other level. */
  lemma SummaryTransition(s: StateInfo)
    ensures ChangeState(s, "PLB") == Some(s.(state := Summary))
    ensures s.state != Summary ==> ChangeState(s, "SE") == Some(s.(state := Summary))
  {
  }

  /** The levels in which the source expects each opening segment (the
      comments beside the default branches). */
  predicate Expected(s: StateInfo, name: string) {
    && (name == "N1" ==> s.state in {Heading, Loop1000, Loop2100, Loop2105})
    && (name == "LX" ==> s.state != Summary)
    && (name == "CLP" ==> s.state in {Loop2000, Loop2100, Loop2105, Loop2110})
    && (name == "SVC" ==> s.state in {Loop2100, Loop2105, Loop2110})
  }

  /** The indices that are defined: each level has the indices of its own
      loop and of the loops enclosing it, and an inner index is only ever
      defined together with the outer ones. */
  predicate Coherent(s: StateInfo) {
    && (s.state == Loop1000 ==> s.loop1000Idx.Some?)
    && (s.state in {Loop2000, Loop2100, Loop2105, Loop2110} ==> s.loop2000Idx.Some?)
    && (s.state in {Loop2100, Loop2105, Loop2110} ==> s.loop2100Idx.Some?)
    && (s.state == Loop2105 ==> s.loop2105Idx.Some?)
    && (s.state == Loop2110 ==> s.loop2110Idx.Some?)
    && (s.loop2100Idx.Some? ==> s.loop2000Idx.Some?)
    && (s.loop2105Idx.Some? ==> s.loop2100Idx.Some?)
    && (s.loop2110Idx.Some? ==> s.loop2100Idx.Some?)
  }

  /** In a coherent record, a segment met where the source expects it never
      reads an undefined index, and the new record is coherent again. */
  lemma ExpectedTransition(s: StateInfo, name: string)
    requires Coherent(s) && Expected(s, name)
    ensures CanChange(s, name)
    ensures ChangeState(s, name).Some? ==> Coherent(ChangeState(s, name).value)
  {
  }
}
