/**
 * The parts of the array rep (lib/reps/array.js) that act on the rendered
 * markup: `highlightObject`, which highlights the elements of the array in
 * the page unless there are too many, and `getItemIndex`, which finds the
 * position of a rendered item among its siblings.
 */
module ArrayRepDom {
  import opened Wrappers

  // ------------------------------------------------------ highlightObject

  /** What hovering the array does: highlight its elements, only set the tooltip, or nothing. */
  datatype HighlightOutcome = Highlight | TooltipOnly | Nothing

  /** The element under the pointer is one of the two brackets of the array. */
  predicate IsBracket(classes: set<string>) {
    "arrayLeftBracket" in classes || "arrayRightBracket" in classes
  }

  /**
   * The decision of `highlightObject`. `realLength` is the length of the
   * real object behind the grip (`None` when there is none), `limit` the
   * "multiHighlightLimit" option. Highlighting is suppressed exactly when
   * there is no real object or a positive limit is exceeded; a limit of zero
   * or less disables the cap. When suppressed, only a bracket gets the
   * tooltip.
   */
  function HighlightDecision(realLength: Option<nat>, limit: int, onBracket: bool): (d: HighlightOutcome)
    ensures d == Highlight <==> realLength.Some? && (limit <= 0 || realLength.value <= limit)
    ensures d == TooltipOnly <==> d != Highlight && onBracket
    ensures d == Nothing <==> d != Highlight && !onBracket
  {
    if realLength.None? || (limit > 0 && realLength.value > limit) then
      (if onBracket then TooltipOnly else Nothing)
    else
      Highlight
  }

  /** A longer array is suppressed whenever a shorter one is. */
  lemma SuppressionIsMonotone(n: nat, m: nat, limit: int, onBracket: bool)
    requires n <= m
    requires HighlightDecision(Some(n), limit, onBracket) != Highlight
    ensures HighlightDecision(Some(m), limit, onBracket) != Highlight
  {
  }

  /** The element hovered: its CSS classes and its `title` attribute. */
  class Target {
    const classes: set<string>
    var title: Option<string>

    constructor (classes: set<string>, title: Option<string>)
      ensures this.classes == classes && this.title == title
    {
      this.classes := classes;
      this.title := title;
    }
  }

  function LengthOf<X>(arr: Option<seq<X>>): Option<nat> {
    if arr.Some? then Some(|arr.value|) else None
  }

  /**
   * `ArrBase.highlightObject`. `arr` is what `getRealObject` gives,
   * `tooltipFor(limit)` the localised "console.multiHighlightLimitExceeded"
   * message; `highlighted` is the argument of the `Inspector.highlightObject`
   * call, `None` when no call is made.
   */
  method HighlightObject<X>(arr: Option<seq<X>>, limit: int, target: Target, tooltipFor: int -> string)
    returns (highlighted: Option<seq<X>>)
    modifies target
    ensures match HighlightDecision(LengthOf(arr), limit, IsBracket(target.classes))
      case Highlight => target.title == None && highlighted == arr && arr.Some?
      case TooltipOnly => target.title == Some(tooltipFor(limit)) && highlighted == None
      case Nothing => target.title == old(target.title) && highlighted == None
  {
    if arr.None? || (limit > 0 && |arr.value| > limit) {
      if "arrayLeftBracket" in target.classes || "arrayRightBracket" in target.classes {
        target.title := Some(tooltipFor(limit));
      }
      return None;
    }
    target.title := None;
    return arr;
  }

  // --------------------------------------------------------- getItemIndex

  /**
   * A node of the rendered array: its previous sibling and whether its
   * `repObject` is truthy (the test `if (child.repObject)`). The ghost
   * `preceding` lists the previous siblings, nearest first.
   */
  class DomNode {
    const previousSibling: DomNode?
    const hasRepObject: bool
    ghost const preceding: seq<DomNode>

    ghost predicate Valid()
      decreases |preceding|
    {
      if previousSibling == null then preceding == []
      else
        && |preceding| >= 1
        && preceding[0] == previousSibling
        && previousSibling.preceding == preceding[1..]
        && previousSibling.Valid()
    }

    constructor (previousSibling: DomNode?, hasRepObject: bool)
      requires previousSibling != null ==> previousSibling.Valid()
      ensures Valid()
      ensures this.previousSibling == previousSibling && this.hasRepObject == hasRepObject
    {
      this.previousSibling := previousSibling;
      this.hasRepObject := hasRepObject;
      this.preceding := if previousSibling == null then [] else [previousSibling] + previousSibling.preceding;
    }
  }

  /** The number of nodes in `nodes` whose `repObject` is truthy. */
  function CountRepObjects(nodes: seq<DomNode>): (n: nat)
    ensures n <= |nodes|
  {
    if nodes == [] then 0
    else (if nodes[0].hasRepObject then 1 else 0) + CountRepObjects(nodes[1..])
  }

  /** `ArrBase.getItemIndex`: the number of previous siblings of `child` whose `repObject` is truthy. */
  method GetItemIndex(child: DomNode) returns (index: nat)
    requires child.Valid()
    ensures index == CountRepObjects(child.preceding)
    ensures index <= |child.preceding|
  {
    index := 0;
    var node := child.previousSibling;
    ghost var rest := child.preceding;
    if node != null {
      assert rest == [node] + node.preceding;
    }
    while node != null
      invariant node == null ==> rest == []
      invariant node != null ==> node.Valid() && rest == [node] + node.preceding
      invariant index + CountRepObjects(rest) == CountRepObjects(child.preceding)
      decreases |rest|
    {
      assert rest[1..] == node.preceding;
      if node.hasRepObject {
        index := index + 1;
      }
      rest := node.preceding;
      var next := node.previousSibling;
      if next != null {
        assert node.preceding == [next] + next.preceding;
      }
      node := next;
    }
  }

  /** Every previous sibling is itself well formed, and its own previous siblings come after it in the list. */
  lemma {:induction false} PrecedingSuffix(node: DomNode, k: nat)
    requires node.Valid() && k < |node.preceding|
    ensures node.preceding[k].Valid() && node.preceding[k].preceding == node.preceding[k + 1..]
    decreases |node.preceding|
  {
    var prev := node.previousSibling;
    if k > 0 {
      PrecedingSuffix(prev, k - 1);
      assert prev.preceding[k - 1] == node.preceding[k];
      assert prev.preceding[k..] == node.preceding[k + 1..];
    }
  }

  lemma {:induction false} CountRepObjectsOfSuffix(nodes: seq<DomNode>, k: nat)
    requires k < |nodes| && nodes[k].hasRepObject
    ensures CountRepObjects(nodes[k + 1..]) < CountRepObjects(nodes)
    decreases k
  {
    if k > 0 {
      CountRepObjectsOfSuffix(nodes[1..], k - 1);
      assert nodes[1..][k..] == nodes[k + 1..];
    }
  }

  /**
   * Items get distinct indices in document order: an earlier sibling whose
   * `repObject` is truthy has a strictly smaller item index.
   */
  lemma EarlierItemHasSmallerIndex(node: DomNode, k: nat)
    requires node.Valid() && k < |node.preceding| && node.preceding[k].hasRepObject
    ensures node.preceding[k].Valid()
    ensures CountRepObjects(node.preceding[k].preceding) < CountRepObjects(node.preceding)
  {
    PrecedingSuffix(node, k);
    CountRepObjectsOfSuffix(node.preceding, k);
  }
}
