/**
 The nested document that a structured rewrite may return: `_validate_generated_blocks`, its shared
 set of ids, and the id of the attribution block that is appended afterwards.
 */
module StructuredBlocks {
  import opened Sets
  import opened Wrappers
  import opened Text

  /******* Documents, as far as the validator looks at them *******/

  /** `marks` is absent when it is not a list; a mark without a type is "". */
  datatype Segment = Bare | Styled(marks: Option<seq<string>>)

  datatype Rich = NotList | Segments(segments: seq<Segment>)

  datatype Label = NoLabel | TextLabel | OtherLabel

  datatype Item = BareItem | ItemObject(labelled: Label, content: Rich)

  /** An `id` that is not a string is absent; `items` is absent when it is not a list. */
  datatype Block = Block(id: Option<string>, kind: string, content: Rich, credit: Rich, summary: Rich,
                         items: Option<seq<Item>>, children: Children)

  datatype Children = Absent | NotAnArray | Nested(blocks: seq<Node>)

  datatype Node = Object(block: Block) | NotObject

  datatype Error =
    | TooDeep | NoStableId | DuplicateId | NotAuthorable | BadMark | BadLabel | NestingNotAllowed | BlocksNotArray
    | ChildNotObject

  const MAX_DEPTH: nat := 2

  const BLOCK_TYPES: set<string> := {"paragraph", "heading", "quote", "pull_quote", "list", "details", "divider"}
  const MARK_TYPES: set<string> := {"bold", "italic", "underline", "strike", "strikethrough", "code"}

  /******* What is acceptable *******/

  predicate MarkOk(mark: string) {
    mark in ["", "bold", "italic", "underline", "strike", "strikethrough", "code"]
  }

  predicate KindOk(kind: string) {
    kind in ["paragraph", "heading", "quote", "pull_quote", "list", "details", "divider"]
  }

  predicate SegmentOk(s: Segment) {
    s.Styled? && s.marks.Some? ==> forall m :: m in s.marks.value ==> MarkOk(m)
  }

  predicate RichOk(r: Rich) {
    r.Segments? ==> forall s :: s in r.segments ==> SegmentOk(s)
  }

  predicate ItemOk(item: Item) {
    item.ItemObject? ==> !item.labelled.OtherLabel? && RichOk(item.content)
  }

  /** The texts of the fields that this type of block uses. */
  predicate TextsOk(b: Block) {
    && (b.kind in {"paragraph", "heading", "quote", "pull_quote", "details"} ==> RichOk(b.content))
    && (b.kind in {"quote", "pull_quote"} ==> RichOk(b.credit))
    && (b.kind == "details" ==> RichOk(b.summary))
    && (b.kind == "list" && b.items.Some? ==> forall item :: item in b.items.value ==> ItemOk(item))
  }

  /** Everything the validator asks of one block, except that ids are not repeated. */
  predicate BlockOk(b: Block, depth: nat)
    decreases b
  {
    && b.id.Some? && Strip(b.id.value) != "" && KindOk(b.kind) && TextsOk(b)
    && match b.children
       case Absent => true
       case NotAnArray => false
       case Nested(blocks) =>
         && b.kind in {"quote", "details"} && depth < 2
         && forall i :: 0 <= i < |blocks| ==> NodeOk(blocks[i], depth + 1)
  }

  predicate NodeOk(n: Node, depth: nat)
    decreases n
  {
    n.Object? && BlockOk(n.block, depth)
  }

  predicate AllOk(nodes: seq<Node>, depth: nat) {
    forall i :: 0 <= i < |nodes| ==> NodeOk(nodes[i], depth)
  }

  function IdText(b: Block): string {
    if b.id.Some? then b.id.value else ""
  }

  /** The ids of a block and of everything below it, in document order; one for each block. */
  function NodeIds(n: Node): seq<string>
    decreases n
  {
    match n
    case NotObject => []
    case Object(b) => [IdText(b)] + (if b.children.Nested? then Ids(b.children.blocks) else [])
  }

  function Ids(nodes: seq<Node>): seq<string>
    decreases nodes
  {
    if nodes == [] then [] else NodeIds(nodes[0]) + Ids(nodes[1..])
  }

  ghost predicate Distinct(ids: seq<string>) {
    forall i, j :: 0 <= i < j < |ids| ==> ids[i] != ids[j]
  }

  ghost predicate Fresh(ids: seq<string>, seen: set<string>) {
    forall x :: x in ids ==> x !in seen
  }

  /** A well-formed forest whose ids are all different, and different from the ids seen before. */
  ghost predicate Acceptable(nodes: seq<Node>, depth: nat, seen: set<string>) {
    depth <= 2 && AllOk(nodes, depth) && Distinct(Ids(nodes)) && Fresh(Ids(nodes), seen)
  }

  function Elements(ids: seq<string>): set<string> {
    set x | x in ids
  }

  lemma {:induction false} IdsAppend(a: seq<Node>, n: Node)
    ensures Ids(a + [n]) == Ids(a) + NodeIds(n)
  {
    if a == [] {
      assert a + [n] == [n] && [n][1..] == [];
    } else {
      assert (a + [n])[1..] == a[1..] + [n];
      IdsAppend(a[1..], n);
    }
  }

  lemma {:induction false} IdsPrefix(nodes: seq<Node>, i: nat)
    requires i <= |nodes|
    ensures Ids(nodes[..i]) <= Ids(nodes)
  {
    if i > 0 {
      assert nodes[..i][1..] == nodes[1..][..i - 1];
      IdsPrefix(nodes[1..], i - 1);
    }
  }

  lemma DistinctAppend(a: seq<string>, b: seq<string>, seen: set<string>)
    ensures Distinct(a + b) && Fresh(a + b, seen)
       <==> Distinct(a) && Fresh(a, seen) && Distinct(b) && Fresh(b, seen + Elements(a))
  {
    var c := a + b;
    if Distinct(c) && Fresh(c, seen) {
      assert forall i :: 0 <= i < |a| ==> c[i] == a[i];
      assert forall i :: 0 <= i < |b| ==> c[|a| + i] == b[i];
      forall x | x in b
        ensures x in c && x !in Elements(a)
      {
        var j :| 0 <= j < |b| && b[j] == x;
        assert c[|a| + j] == x;
      }
    }
    if Distinct(a) && Fresh(a, seen) && Distinct(b) && Fresh(b, seen + Elements(a)) {
      forall i, j | 0 <= i < j < |c|
        ensures c[i] != c[j]
      {
        if i < |a| <= j {
          assert c[i] in Elements(a) && c[j] in b;
        }
      }
    }
  }

  /******* The validator *******/

  /** The mutable set that one validation shares between all its levels. */
  class IdSet {
    var ids: set<string>

    constructor ()
      ensures ids == {}
    {
      ids := {};
    }
  }

  method ValidateRichText(value: Rich) returns (ok: bool)
    ensures ok == RichOk(value)
  {
    if value.NotList? {
      return true;
    }
    for i := 0 to |value.segments|
      invariant forall k :: 0 <= k < i ==> SegmentOk(value.segments[k])
    {
      var segment := value.segments[i];
      if segment.Styled? && segment.marks.Some? {
        for j := 0 to |segment.marks.value|
          invariant forall k :: 0 <= k < j ==> MarkOk(segment.marks.value[k])
        {
          var mark := segment.marks.value[j];
          if mark != "" && mark !in MARK_TYPES {
            assert mark in segment.marks.value && !MarkOk(mark);
            assert segment in value.segments;
            return false;
          }
        }
      }
    }
    return true;
  }

  method ValidateItems(items: seq<Item>) returns (error: Option<Error>)
    ensures error.None? <==> forall item :: item in items ==> ItemOk(item)
  {
    for i := 0 to |items|
      invariant forall k :: 0 <= k < i ==> ItemOk(items[k])
    {
      var item := items[i];
      if item.ItemObject? {
        if item.labelled.OtherLabel? {
          assert !ItemOk(item);
          return Some(BadLabel);
        }
        var ok := ValidateRichText(item.content);
        if !ok {
          assert !ItemOk(item);
          return Some(BadMark);
        }
      }
    }
    return None;
  }

  /** The checks of a block's own texts. */
  method ValidateTexts(b: Block) returns (error: Option<Error>)
    ensures error.None? <==> TextsOk(b)
  {
    hide RichOk, ItemOk;
    var ok := true;
    if b.kind in {"paragraph", "heading", "quote", "pull_quote"} {
      ok := ValidateRichText(b.content);
      if !ok {
        return Some(BadMark);
      }
    }
    if b.kind in {"quote", "pull_quote"} {
      ok := ValidateRichText(b.credit);
      if !ok {
        return Some(BadMark);
      }
    }
    if b.kind == "details" {
      ok := ValidateRichText(b.summary);
      if !ok {
        return Some(BadMark);
      }
      ok := ValidateRichText(b.content);
      if !ok {
        return Some(BadMark);
      }
    }
    if b.kind == "list" && b.items.Some? {
      error := ValidateItems(b.items.value);
      return;
    }
    return None;
  }

  /**
   Accepts exactly the acceptable forests, and then returns the number of blocks in them and has
   added their ids to the shared set.
   */
  method ValidateGeneratedBlocks(blocks: seq<Node>, depth: nat, seen: IdSet) returns (r: Result<nat, Error>)
    requires depth <= MAX_DEPTH + 1 && forall i :: 0 <= i < |blocks| ==> blocks[i].Object?
    modifies seen
    ensures r.Ok? <==> Acceptable(blocks, depth, old(seen.ids))
    ensures r.Ok? ==> r.value == |Ids(blocks)| && seen.ids == old(seen.ids) + Elements(Ids(blocks))
    decreases MAX_DEPTH + 1 - depth, 1
  {
    hide NodeOk, Distinct, Fresh;
    if depth > MAX_DEPTH {
      return Err(TooDeep);
    }
    var count := 0;
    EmptyOk(depth, seen.ids);
    for i := 0 to |blocks|
      invariant Acceptable(blocks[..i], depth, old(seen.ids))
      invariant count == |Ids(blocks[..i])| && seen.ids == old(seen.ids) + Elements(Ids(blocks[..i]))
    {
      OneMore(blocks, i, depth, old(seen.ids));
      var one := ValidateBlock(blocks[i].block, depth, seen);
      if one.Err? {
        return Err(one.error);
      }
      count := count + one.value;
    }
    assert blocks[..|blocks|] == blocks;
    return Ok(count);
  }

  lemma EmptyOk(depth: nat, seen: set<string>)
    requires depth <= MAX_DEPTH
    ensures Acceptable([], depth, seen) && seen + Elements(Ids([])) == seen
  {
  }

  /** The forest up to block i + 1 is acceptable exactly when block i also is; a bad block spoils the forest. */
  lemma OneMore(blocks: seq<Node>, i: nat, depth: nat, seen: set<string>)
    requires i < |blocks| && Acceptable(blocks[..i], depth, seen)
    ensures var n, before := blocks[i], seen + Elements(Ids(blocks[..i]));
      && Ids(blocks[..i + 1]) == Ids(blocks[..i]) + NodeIds(n)
      && seen + Elements(Ids(blocks[..i + 1])) == before + Elements(NodeIds(n))
      && (Acceptable(blocks[..i + 1], depth, seen) <==>
            NodeOk(n, depth) && Distinct(NodeIds(n)) && Fresh(NodeIds(n), before))
      && (Acceptable(blocks, depth, seen) ==> Acceptable(blocks[..i + 1], depth, seen))
  {
    hide NodeOk;
    assert blocks[..i + 1] == blocks[..i] + [blocks[i]];
    IdsAppend(blocks[..i], blocks[i]);
    DistinctAppend(Ids(blocks[..i]), NodeIds(blocks[i]), seen);
    assert AllOk(blocks[..i + 1], depth) <==> AllOk(blocks[..i], depth) && NodeOk(blocks[i], depth) by {
      assert blocks[..i + 1][i] == blocks[i];
      assert forall k :: 0 <= k < i ==> blocks[..i + 1][k] == blocks[..i][k];
    }
    IdsPrefix(blocks, i + 1);
    PrefixFresh(Ids(blocks[..i + 1]), Ids(blocks), seen);
  }

  lemma PrefixFresh(a: seq<string>, b: seq<string>, seen: set<string>)
    requires a <= b
    ensures Distinct(b) && Fresh(b, seen) ==> Distinct(a) && Fresh(a, seen)
  {
    assert a == b[..|a|];
  }

  /** The loop body: one block with everything below it. */
  method ValidateBlock(b: Block, depth: nat, seen: IdSet) returns (r: Result<nat, Error>)
    requires depth <= MAX_DEPTH
    modifies seen
    ensures r.Ok? <==>
      NodeOk(Object(b), depth) && Distinct(NodeIds(Object(b))) && Fresh(NodeIds(Object(b)), old(seen.ids))
    ensures r.Ok? ==> r.value == |NodeIds(Object(b))| && seen.ids == old(seen.ids) + Elements(NodeIds(Object(b)))
    decreases MAX_DEPTH + 1 - depth, 0
  {
    hide TextsOk, Distinct, Fresh, Acceptable, NodeOk, BlockOk;
    BlockIs(b, depth, seen.ids);
    if b.id.None? || Strip(b.id.value) == "" {
      return Err(NoStableId);
    }
    if b.id.value in seen.ids {
      return Err(DuplicateId);
    }
    seen.ids := seen.ids + {b.id.value};
    if b.kind !in BLOCK_TYPES {
      return Err(NotAuthorable);
    }
    var texts := ValidateTexts(b);
    if texts.Some? {
      return Err(texts.value);
    }
    match b.children
    case Absent =>
      return Ok(1);
    case NotAnArray =>
      return Err(if b.kind !in {"quote", "details"} then NestingNotAllowed else BlocksNotArray);
    case Nested(children) =>
      if b.kind !in {"quote", "details"} {
        return Err(NestingNotAllowed);
      }
      if exists i :: 0 <= i < |children| && !children[i].Object? {
        return Err(ChildNotObject);
      }
      var below := ValidateGeneratedBlocks(children, depth + 1, seen);
      if below.Err? {
        return Err(below.error);
      }
      return Ok(1 + below.value);
  }

  lemma KindsAgree(kind: string)
    ensures KindOk(kind) <==> kind in BLOCK_TYPES
  {
  }

  /** What a block asks for, one condition for each check. */
  lemma BlockIs(b: Block, depth: nat, seen: set<string>)
    ensures (NodeOk(Object(b), depth) && Distinct(NodeIds(Object(b))) && Fresh(NodeIds(Object(b)), seen))
       <==> (b.id.Some? && Strip(b.id.value) != "" && b.id.value !in seen && b.kind in BLOCK_TYPES && TextsOk(b)
             && (b.children.Absent? || (b.children.Nested? && b.kind in {"quote", "details"}
                                        && Acceptable(b.children.blocks, depth + 1, seen + {b.id.value}))))
    ensures b.children.Nested? && Acceptable(b.children.blocks, depth + 1, seen + {IdText(b)}) ==>
      forall i :: 0 <= i < |b.children.blocks| ==> b.children.blocks[i].Object?
    ensures NodeIds(Object(b)) == [IdText(b)] + if b.children.Nested? then Ids(b.children.blocks) else []
    ensures Elements(NodeIds(Object(b))) ==
      {IdText(b)} + if b.children.Nested? then Elements(Ids(b.children.blocks)) else {}
  {
    hide TextsOk, Distinct, Fresh, KindOk;
    KindsAgree(b.kind);
    var below := if b.children.Nested? then Ids(b.children.blocks) else [];
    DistinctAppend([IdText(b)], below, seen);
    OneId(IdText(b), seen);
    if b.children.Nested? {
      var children := b.children.blocks;
      assert AllOk(children, depth + 1) <==> forall i :: 0 <= i < |children| ==> NodeOk(children[i], depth + 1);
    } else {
      NoIds(seen + {IdText(b)});
    }
  }

  lemma OneId(id: string, seen: set<string>)
    ensures Elements([id]) == {id} && Distinct([id]) && (Fresh([id], seen) <==> id !in seen)
  {
    assert id in [id];
  }

  lemma NoIds(seen: set<string>)
    ensures Elements([]) == {} && Distinct([]) && Fresh([], seen)
  {
  }

  /** No accepted document has a child list, not even an empty one, inside two others. */
  lemma AcceptedNesting(nodes: seq<Node>, i: nat, j: nat, k: nat)
    requires AllOk(nodes, 0) && i < |nodes| && nodes[i].Object? && nodes[i].block.children.Nested?
    requires j < |nodes[i].block.children.blocks|
    requires var child := nodes[i].block.children.blocks[j];
      child.Object? && child.block.children.Nested? && k < |child.block.children.blocks|
    ensures var inner := nodes[i].block.children.blocks[j].block.children.blocks[k];
      inner.Object? && inner.block.children.Absent?
  {
    var child := nodes[i].block.children.blocks[j];
    assert BlockOk(nodes[i].block, 0) && NodeOk(child, 1);
    assert BlockOk(child.block, 1) && NodeOk(child.block.children.blocks[k], 2);
    assert BlockOk(child.block.children.blocks[k].block, 2);
  }

  /** A whole document is accepted from an empty id set. */
  method CountBlocks(blocks: seq<Block>) returns (r: Result<nat, Error>)
    ensures r.Ok? <==> Acceptable(seq(|blocks|, i requires 0 <= i < |blocks| => Object(blocks[i])), 0, {})
    ensures r.Ok? ==> r.value == |Ids(seq(|blocks|, i requires 0 <= i < |blocks| => Object(blocks[i])))|
  {
    var seen := new IdSet();
    r := ValidateGeneratedBlocks(seq(|blocks|, i requires 0 <= i < |blocks| => Object(blocks[i])), 0, seen);
  }

  /******* The attribution block *******/

  const ATTRIBUTION: string := "source_attribution"

  function Candidate(suffix: nat): string {
    if suffix <= 1 then "source_attribution" else "source_attribution_" + Decimal(suffix)
  }

  lemma CandidatesDiffer(i: nat, j: nat)
    requires 1 <= i < j
    ensures Candidate(i) != Candidate(j)
  {
    if i == 1 {
      assert |Candidate(j)| > |"source_attribution"|;
    } else if Candidate(i) == Candidate(j) {
      var n := |"source_attribution_"|;
      assert Candidate(i)[n..] == Decimal(i) && Candidate(j)[n..] == Decimal(j);
      DecimalInjective(i, j);
    }
  }

  /** The candidates before a suffix. */
  ghost function Tried(suffix: nat): set<string> {
    if suffix <= 1 then {} else Tried(suffix - 1) + {Candidate(suffix - 1)}
  }

  lemma {:induction false} TriedDiffer(suffix: nat, later: nat)
    requires 1 <= suffix <= later
    ensures |Tried(suffix)| == suffix - 1 && Candidate(later) !in Tried(suffix)
  {
    hide Candidate;
    if suffix > 1 {
      TriedDiffer(suffix - 1, suffix - 1);
      TriedDiffer(suffix - 1, later);
      CandidatesDiffer(suffix - 1, later);
    }
  }

  /** The least suffix whose candidate is not among the ids. */
  ghost predicate FirstFree(ids: seq<string>, suffix: nat) {
    suffix >= 1 && Candidate(suffix) !in ids && forall k :: 1 <= k < suffix ==> Candidate(k) in ids
  }

  /**
   The first candidate that no top-level block uses. The search ends because the candidates are all
   different: after as many attempts as there are blocks, one is free.
   */
  method AttributionBlockId(topLevel: seq<string>) returns (id: string, suffix: nat)
    ensures id == Candidate(suffix) && FirstFree(topLevel, suffix) && suffix <= |topLevel| + 1
  {
    hide Decimal, Tried;
    assert ATTRIBUTION + "_" == "source_attribution_";
    var existing := Elements(topLevel);
    id, suffix := ATTRIBUTION, 1;
    TriedMore(suffix);
    while id in existing
      invariant suffix >= 1 && id == Candidate(suffix) && Tried(suffix) <= existing
      invariant forall k :: 1 <= k < suffix ==> Candidate(k) in topLevel
      decreases |existing - Tried(suffix)|
    {
      TriedDiffer(suffix, suffix);
      TriedMore(suffix);
      SmallerDifference(existing, Tried(suffix), id);
      suffix := suffix + 1;
      id := ATTRIBUTION + "_" + Decimal(suffix);
    }
    TriedDiffer(suffix, suffix);
    SubsetSize(Tried(suffix), existing);
    ElementsSize(topLevel);
  }

  lemma TriedMore(suffix: nat)
    requires suffix >= 1
    ensures Tried(1) == {} && Tried(suffix + 1) == Tried(suffix) + {Candidate(suffix)}
  {
  }

  lemma SmallerDifference(all: set<string>, part: set<string>, x: string)
    requires x in all && x !in part
    ensures |all - (part + {x})| < |all - part|
  {
    assert all - part == (all - (part + {x})) + {x};
  }

  lemma {:induction false} ElementsSize(ids: seq<string>)
    ensures |Elements(ids)| <= |ids|
  {
    if ids != [] {
      ElementsSize(ids[1..]);
      assert Elements(ids) == Elements(ids[1..]) + {ids[0]};
    }
  }

  /******* The appended document *******/

  /** The ids of the blocks themselves. */
  function TopIds(nodes: seq<Node>): seq<string> {
    if nodes == [] then []
    else (if nodes[0].Object? then [IdText(nodes[0].block)] else []) + TopIds(nodes[1..])
  }

  /** The ids below a block. */
  function NestedIds(n: Node): seq<string> {
    if n.Object? && n.block.children.Nested? then Ids(n.block.children.blocks) else []
  }

  /** The ids of all blocks that lie inside another one. */
  function Below(nodes: seq<Node>): seq<string> {
    if nodes == [] then [] else NestedIds(nodes[0]) + Below(nodes[1..])
  }

  /** Every id is one of a top-level or of a nested block. */
  lemma {:induction false} TopOrBelow(nodes: seq<Node>, id: string)
    ensures id in Ids(nodes) <==> id in TopIds(nodes) || id in Below(nodes)
  {
    if nodes != [] {
      TopOrBelow(nodes[1..], id);
      var head := if nodes[0].Object? then [IdText(nodes[0].block)] else [];
      assert NodeIds(nodes[0]) == head + NestedIds(nodes[0]);
    }
  }

  function AttributionBlock(id: string): Block {
    Block(Some(id), "paragraph", NotList, NotList, NotList, None, Absent)
  }

  /**
   `structured_candidate_draft_document`: the attribution block is appended under the first candidate
   id that is free at the top level. The ids of the whole document stay distinct exactly when no
   nested block uses that candidate.
   */
  method AppendAttribution(nodes: seq<Node>) returns (document: seq<Node>, suffix: nat)
    ensures FirstFree(TopIds(nodes), suffix) && |document| == |nodes| + 1 && document[..|nodes|] == nodes
    ensures var last := document[|nodes|];
      && last.Object? && last.block.id == Some(Candidate(suffix)) && last.block.kind == "paragraph"
      && last.block.children.Absent? && NodeOk(last, 0)
    ensures document == nodes + [Object(AttributionBlock(Candidate(suffix)))]
    ensures Distinct(Ids(nodes)) ==> (Distinct(Ids(document)) <==> Candidate(suffix) !in Below(nodes))
  {
    var id: string;
    id, suffix := AttributionBlockId(TopIds(nodes));
    document := nodes + [Object(AttributionBlock(id))];
    AppendedIds(nodes, id);
    TopOrBelow(nodes, id);
    CandidateIsStripped(suffix);
  }

  lemma CandidateIsStripped(suffix: nat)
    ensures Strip(Candidate(suffix)) == Candidate(suffix)
  {
    if suffix > 1 {
      DigitsNonempty(suffix);
      DigitsAreDigits(suffix, Decimal(suffix)[|Decimal(suffix)| - 1]);
    }
    StripStripped(Candidate(suffix));
  }

  lemma AppendedIds(nodes: seq<Node>, id: string)
    ensures Distinct(Ids(nodes)) ==>
      (Distinct(Ids(nodes + [Object(AttributionBlock(id))])) <==> id !in Ids(nodes))
  {
    IdsAppend(nodes, Object(AttributionBlock(id)));
    assert NodeIds(Object(AttributionBlock(id))) == [id];
    DistinctAppend(Ids(nodes), [id], {});
    assert id in Ids(nodes) <==> id in Elements(Ids(nodes));
    OneId(id, Elements(Ids(nodes)));
  }

  /** A quote that contains a divider with the first candidate as its id. */
  const CLASHING: seq<Node> :=
    [Object(Block(Some("q"), "quote", NotList, NotList, NotList, None,
                  Nested([Object(Block(Some(ATTRIBUTION), "divider", NotList, NotList, NotList, None, Absent))])))]

  lemma ClashingIsAcceptable()
    ensures Acceptable(CLASHING, 0, {}) && TopIds(CLASHING) == ["q"] && Below(CLASHING) == [ATTRIBUTION]
  {
    var inner := Block(Some(ATTRIBUTION), "divider", NotList, NotList, NotList, None, Absent);
    var outer := Block(Some("q"), "quote", NotList, NotList, NotList, None, Nested([Object(inner)]));
    StripStripped("q");
    StripStripped(ATTRIBUTION);
    assert NodeIds(Object(inner)) == [ATTRIBUTION];
    assert Ids([Object(inner)]) == [ATTRIBUTION] by { assert [Object(inner)][1..] == []; }
    assert NodeIds(Object(outer)) == ["q", ATTRIBUTION];
    assert Ids([Object(outer)]) == ["q", ATTRIBUTION] by { assert [Object(outer)][1..] == []; }
    assert NodeOk(Object(inner), 1);
    assert NodeOk(Object(outer), 0);
    assert CLASHING == [Object(outer)] && CLASHING[1..] == [];
  }

  /** On this document, which the validator accepts, the search returns the id that clashes. */
  method AppendToClashing() returns (document: seq<Node>)
    ensures Acceptable(CLASHING, 0, {}) && document == CLASHING + [Object(AttributionBlock(ATTRIBUTION))]
    ensures !Distinct(Ids(document))
  {
    hide Acceptable, Distinct;
    ClashingIsAcceptable();
    var suffix: nat;
    document, suffix := AppendAttribution(CLASHING);
    assert Candidate(1) == ATTRIBUTION && ATTRIBUTION !in ["q"];
    assert suffix == 1;
    AcceptableIsDistinct(CLASHING);
  }

  lemma AcceptableIsDistinct(nodes: seq<Node>)
    requires Acceptable(nodes, 0, {})
    ensures Distinct(Ids(nodes))
  {
  }
}
