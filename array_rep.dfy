/**
 * The array rep of the DOM panel (lib/reps/array.js): how an array-like
 * remote value (a "grip") is turned into the list of items the array template
 * displays, which values the rep claims, its titles, and the test for custom
 * properties that drives the expandable twisty.
 *
 * The rep registry is outside this module: `Reps.getRep` is the `getRep`
 * field of an `Env`, `Reps.isGrip` is the `Option` around a `Grip`, and the
 * localised word "more" is the `more` field.
 */
module ArrayRep {
  import opened Wrappers
  import opened JsNumbers

  // ---------------------------------------------------------------- grips

  /** The `preview` of a grip: its `kind` and, when present, the sampled `items`. */
  datatype Preview<V> = Preview(kind: string, items: Option<seq<V>>)

  /** A remote object description: its `class` and optional `preview`. */
  datatype Grip<V> = Grip(className: string, preview: Option<Preview<V>>)

  /**
   * `ArrayLikeObject.isArray`: the value passes `Reps.isGrip` (it is `Some`),
   * has a preview, and the preview's kind is "ArrayLike". Every other value is
   * refused (the source returns `undefined`, which is falsy).
   */
  function ArrayLikeIsArray<V>(value: Option<Grip<V>>): (r: bool)
    ensures r <==> value.Some? && value.value.preview.Some? && value.value.preview.value.kind == "ArrayLike"
    ensures value.Some? && value.value.preview.None? ==> !r
  {
    match value
    case None => false
    case Some(grip) =>
      match grip.preview
      case None => false
      case Some(preview) => preview.kind == "ArrayLike"
  }

  /** `ArrBase.isArray`: the base rep claims nothing by itself. */
  function BaseIsArray<X>(obj: X): (r: bool)
    ensures !r
  {
    false
  }

  /** `supportsObject` of the base rep, which asks its own `isArray`. */
  function BaseSupportsObject<X>(obj: X): (r: bool)
    ensures !r
  {
    BaseIsArray(obj)
  }

  /** `supportsObject` as inherited by `ArrayLikeObject`, whose `isArray` it calls. */
  function ArrayLikeSupportsObject<V>(value: Option<Grip<V>>): (r: bool)
    ensures r <==> value.Some? && value.value.preview.Some? && value.value.preview.value.kind == "ArrayLike"
  {
    ArrayLikeIsArray(value)
  }

  /**
   * `ArrBase.getTitle`: "[" + length + "]". Between the brackets stands a
   * canonical numeral that reads back as the length, which by
   * `NatToStringOfDigitsValue` is exactly the decimal text of the length.
   */
  function BaseTitle(length: nat): (r: string)
    ensures |r| >= 3 && r[0] == '[' && r[|r| - 1] == ']'
    ensures IsCanonicalNumeral(r[1..|r| - 1])
    ensures ParseInt(r[1..|r| - 1]) == Some(length)
  {
    var digits := NatToString(length);
    ParseIntOfNatToString(length, []);
    assert digits + [] == digits;
    assert ("[" + digits + "]")[1..|digits| + 1] == digits;
    "[" + digits + "]"
  }

  /** `ArrayLikeObject.getTitle`: the grip's class name, such as "NodeList". */
  function ArrayLikeTitle<V>(grip: Grip<V>): (r: string)
    ensures r == grip.className
  {
    grip.className
  }

  // ---------------------------------------------------------------- items

  /** The value handed to the registry for an element: the element, or a `Reps.ReferenceObj` around it. */
  datatype Displayed<V> = Plain(value: V) | Reference(target: V)

  /** The `object` of an item: a displayed element, a caught exception, or the caption text. */
  datatype Shown<V, E> = Element(displayed: Displayed<V>) | Thrown(exc: E) | Caption(text: string)

  /** What `Reps.getRep` returns: a rep with an optional `shortTag` and its `tag`. */
  datatype Rep<T> = Rep(shortTag: Option<T>, tag: T)

  /** One entry of the list the template's FOR iterates: `{object, tag, delim}`. */
  datatype Item<V, E, T> = Item(content: Shown<V, E>, tag: T, delim: string)

  /**
   * What the iterator needs from its surroundings:
   *  - `isContainer(v)`: `v === array`, the element is the items array itself;
   *  - `getRep(d)`: `Reps.getRep(d)` followed by reading its tag, which may throw;
   *  - `repOfError(e)`: `Reps.getRep(e)` for a caught exception;
   *  - `captionTag`: `Reps.Caption.tag`;
   *  - `more`: the localised string "firebug.reps.more".
   */
  datatype Env<!V, !E, T> = Env(
    isContainer: V -> bool,
    getRep: Displayed<V> -> Result<Rep<T>, E>,
    repOfError: E -> Rep<T>,
    captionTag: T,
    more: string)

  /** `rep.shortTag || rep.tag` */
  function TagOf<T>(rep: Rep<T>): T {
    if rep.shortTag.Some? then rep.shortTag.value else rep.tag
  }

  /** The value rendered for an element: a reference marker when it is the container itself. */
  function DisplayedOf<V, E, T>(v: V, env: Env<V, E, T>): (d: Displayed<V>)
    ensures d.Reference? <==> env.isContainer(v)
    ensures d == Plain(v) || d == Reference(v)
  {
    if env.isContainer(v) then Reference(v) else Plain(v)
  }

  /** The item pushed for element `i` by one turn of the loop, the `catch` branch included. */
  function ElementItem<V, E, T>(a: seq<V>, i: nat, env: Env<V, E, T>): (r: Item<V, E, T>)
    requires i < |a|
    ensures r.delim == "" <==> i == |a| - 1
    ensures r.delim != "" ==> r.delim == ", "
    ensures !r.content.Caption?
    ensures r.content.Element? <==> env.getRep(DisplayedOf(a[i], env)).Success?
    ensures r.content.Element? ==>
      r.content.displayed == DisplayedOf(a[i], env)
      && r.tag == TagOf(env.getRep(r.content.displayed).value)
    ensures r.content.Thrown? ==>
      r.content.exc == env.getRep(DisplayedOf(a[i], env)).error && r.tag == TagOf(env.repOfError(r.content.exc))
  {
    var delim := if i == |a| - 1 then "" else ", ";
    var d := DisplayedOf(a[i], env);
    match env.getRep(d)
    case Success(rep) => Item(Element(d), TagOf(rep), delim)
    case Failure(exc) => Item(Thrown(exc), TagOf(env.repOfError(exc)), delim)
  }

  /** `(length - max) + " " + more + "..."` */
  function CaptionText(remaining: nat, more: string): string {
    NatToString(remaining) + " " + more + "..."
  }

  function CaptionItem<V, E, T>(remaining: nat, env: Env<V, E, T>): Item<V, E, T> {
    Item(Caption(CaptionText(remaining, env.more)), env.captionTag, "")
  }

  /** The items of the first `n` elements, in order, as the loop pushes them. */
  function Walk<V, E, T>(a: seq<V>, n: nat, env: Env<V, E, T>): (r: seq<Item<V, E, T>>)
    requires n <= |a|
    ensures |r| == n
    ensures forall k :: 0 <= k < n ==> r[k] == ElementItem(a, k, env)
    decreases n
  {
    if n == 0 then [] else Walk(a, n - 1, env) + [ElementItem(a, n - 1, env)]
  }

  /** How many elements the loop `i < length && i <= max` visits. */
  function VisitedCount(length: nat, max: int): nat {
    if max < 0 then 0 else if length <= max + 1 then length else max + 1
  }

  /** A list of more than `max + 1` elements is cut: slot `max` holds the caption. */
  predicate Truncated(length: nat, max: int) {
    0 <= max && length > max + 1
  }

  /**
   * The list `arrayIterator` returns for the items `a`: one item per visited
   * element, then, when more than `max + 1` elements exist, slot `max`
   * replaced by the caption. For a negative `max` nothing is visited and the
   * assignment `items[max] = ...` creates a non-index property that the
   * template never iterates, so the list stays empty.
   */
  function RenderItems<V, E, T>(a: seq<V>, max: int, env: Env<V, E, T>): (r: seq<Item<V, E, T>>)
    ensures |r| == VisitedCount(|a|, max)
  {
    var visited := Walk(a, VisitedCount(|a|, max), env);
    if Truncated(|a|, max) then visited[max := CaptionItem(|a| - max, env)] else visited
  }

  /** `grip.preview.items`; `None` where reading it, or its `length`, throws a TypeError. */
  function PreviewItems<V>(grip: Grip<V>): Option<seq<V>> {
    match grip.preview
    case None => None
    case Some(preview) => preview.items
  }

  /** What `arrayIterator(grip, max)` returns; `None` stands for the TypeError it lets escape. */
  function Iterate<V, E, T>(grip: Grip<V>, max: int, env: Env<V, E, T>): (r: Option<seq<Item<V, E, T>>>)
    ensures r.None? <==> grip.preview.None? || grip.preview.value.items.None?
    ensures r.Some? ==> |r.value| == VisitedCount(|grip.preview.value.items.value|, max)
  {
    match PreviewItems(grip)
    case None => None
    case Some(a) => Some(RenderItems(a, max, env))
  }

  /** `ArrBase.arrayIterator` */
  method ArrayIterator<V, E, T>(grip: Grip<V>, max: int, env: Env<V, E, T>) returns (r: Option<seq<Item<V, E, T>>>)
    ensures r == Iterate(grip, max, env)
  {
    if grip.preview.None? || grip.preview.value.items.None? {
      return None;
    }
    var elements := grip.preview.value.items.value;
    var items: seq<Item<V, E, T>> := [];
    var i := 0;
    while i < |elements| && i <= max
      invariant 0 <= i <= VisitedCount(|elements|, max)
      invariant items == Walk(elements, i, env)
    {
      var delim := if i == |elements| - 1 then "" else ", ";
      var value := Plain(elements[i]);
      if env.isContainer(elements[i]) {
        value := Reference(elements[i]);
      }
      match env.getRep(value) {
        case Success(rep) =>
          items := items + [Item(Element(value), TagOf(rep), delim)];
        case Failure(exc) =>
          items := items + [Item(Thrown(exc), TagOf(env.repOfError(exc)), delim)];
      }
      i := i + 1;
    }
    if Truncated(|elements|, max) {
      items := items[max := CaptionItem(|elements| - max, env)];
    }
    return Some(items);
  }

  /** The maximum `longArrayIterator` passes. */
  const LongIteratorMax: int := 300

  /** `ArrBase.longArrayIterator`: the iterator with at most 300 (+1) items. */
  method LongArrayIterator<V, E, T>(grip: Grip<V>, env: Env<V, E, T>) returns (r: Option<seq<Item<V, E, T>>>)
    ensures r == Iterate(grip, LongIteratorMax, env)
  {
    r := ArrayIterator(grip, LongIteratorMax, env);
  }

  /** `ArrBase.shortArrayIterator`: the iterator with the "ObjectShortIteratorMax" preference as `max`. */
  method ShortArrayIterator<V, E, T>(grip: Grip<V>, shortIteratorMax: int, env: Env<V, E, T>)
    returns (r: Option<seq<Item<V, E, T>>>)
    ensures r == Iterate(grip, shortIteratorMax, env)
  {
    r := ArrayIterator(grip, shortIteratorMax, env);
  }

  // ------------------------------------------------- properties of the items

  /** Every item but the last is followed by ", "; the last by nothing. */
  lemma Delimiters<V, E, T>(a: seq<V>, max: int, env: Env<V, E, T>)
    ensures var r := RenderItems(a, max, env);
      forall k :: 0 <= k < |r| ==> r[k].delim == (if k == |r| - 1 then "" else ", ")
  {
  }

  /**
   * The items that are not the caption are the elements' own items: all of
   * them without truncation, the first `max` with it.
   */
  lemma ElementsInOrder<V, E, T>(a: seq<V>, max: int, env: Env<V, E, T>)
    ensures var r := RenderItems(a, max, env);
      && (!Truncated(|a|, max) && 0 <= max ==> |r| == |a|)
      && (forall k :: 0 <= k < |r| && !(Truncated(|a|, max) && k == max) ==> r[k] == ElementItem(a, k, env))
  {
  }

  /**
   * With truncation, slot `max` is the caption, with the caption tag and no
   * delimiter, and the number leading its text is the count of elements not
   * shown.
   */
  lemma TruncationCaption<V, E, T>(a: seq<V>, max: int, env: Env<V, E, T>)
    requires Truncated(|a|, max)
    ensures var r := RenderItems(a, max, env);
      && |r| == max + 1
      && r[max] == Item(Caption(CaptionText(|a| - max, env.more)), env.captionTag, "")
      && ParseInt(r[max].content.text) == Some(|a| - max)
  {
    CaptionCountsRemaining(|a| - max, env.more);
  }

  /** `parseInt` of the caption text is the number of elements it stands for. */
  lemma CaptionCountsRemaining(remaining: nat, more: string)
    ensures ParseInt(CaptionText(remaining, more)) == Some(remaining)
  {
    assert CaptionText(remaining, more) == NatToString(remaining) + (" " + more + "...");
    ParseIntOfNatToString(remaining, " " + more + "...");
  }

  /**
   * The rep lookup of one element influences only that element's item: under
   * two registries, the item count is the same, and every item whose element
   * gets the same lookup outcome is the same.
   */
  lemma RepLookupIsPerElement<V, E, T>(a: seq<V>, max: int, env1: Env<V, E, T>, env2: Env<V, E, T>)
    requires env1.isContainer == env2.isContainer && env1.repOfError == env2.repOfError
    requires env1.captionTag == env2.captionTag && env1.more == env2.more
    ensures var r1, r2 := RenderItems(a, max, env1), RenderItems(a, max, env2);
      && |r1| == |r2|
      && forall k :: 0 <= k < |r1| && k < |a| && env1.getRep(DisplayedOf(a[k], env1)) == env2.getRep(DisplayedOf(a[k], env2))
           ==> r1[k] == r2[k]
  {
  }

  /**
   * The iterator never looks past index `max`: two lists of the same length
   * that agree on their first `max + 1` elements give the same items.
   */
  lemma NeverReadsPastMax<V, E, T>(a: seq<V>, b: seq<V>, max: int, env: Env<V, E, T>)
    requires |a| == |b|
    requires forall k :: 0 <= k < |a| && k <= max ==> a[k] == b[k]
    ensures RenderItems(a, max, env) == RenderItems(b, max, env)
  {
  }

  /** The array `a = []; a.push(a)`: one item, a reference marker, with no delimiter. */
  lemma SelfContainingArray<V, E, T>(x: V, max: int, env: Env<V, E, T>)
    requires env.isContainer(x) && 0 <= max
    requires env.getRep(Reference(x)).Success?
    ensures RenderItems([x], max, env) == [Item(Element(Reference(x)), TagOf(env.getRep(Reference(x)).value), "")]
  {
  }

  // ----------------------------------------------------- custom properties

  /**
   * The inner `isInteger(x)` of `hasSpecialProperties`: `x === parseInt(x, 10).toString()`.
   * It holds exactly of the texts `toString()` writes for integers: "1", "-1",
   * but not "01", "+1", "-0" or " 1".
   */
  function IsInteger(x: string): (r: bool)
    ensures r <==> IsCanonicalInteger(x)
  {
    CanonicalIntegerRoundTrips(x);
    match ParseInt(x)
    case None => false
    case Some(y) => x == IntToString(y)
  }

  /** `parseInt` reads a canonical integer text back, and `toString()` writes the same text again. */
  lemma CanonicalIntegerRoundTrips(x: string)
    ensures IsCanonicalInteger(x) ==> ParseInt(x).Some? && IntToString(ParseInt(x).value) == x
  {
    if IsCanonicalNumeral(x) {
      NumeralRoundTrips(x);
    } else if IsCanonicalInteger(x) {
      NegativeNumeralRoundTrips(x[1..]);
      assert x == "-" + x[1..];
    }
  }

  lemma NumeralRoundTrips(x: string)
    requires IsCanonicalNumeral(x)
    ensures ParseInt(x) == Some(DigitsValue(x)) && IntToString(DigitsValue(x)) == x
  {
    ParseIntOfNumeral(x, []);
    assert x + [] == x;
    NatToStringOfDigitsValue(x);
  }

  lemma NegativeNumeralRoundTrips(digits: string)
    requires IsCanonicalNumeral(digits) && digits[0] != '0'
    ensures ParseInt("-" + digits) == Some(-(DigitsValue(digits) as int))
    ensures IntToString(-(DigitsValue(digits) as int)) == "-" + digits
  {
    ParseIntOfNegativeNumeral(digits);
    var v := DigitsValue(digits);
    NonZeroLeadingDigitIsPositive(digits);
    NatToStringOfDigitsValue(digits);
    assert IntToString(-(v as int)) == "-" + NatToString(v);
  }

  /**
   * A property name other than `length` and the names `isInteger` accepts.
   * Those are all canonical integer texts, so non-index names such as "-1"
   * and "4294967295" are not custom either.
   */
  predicate IsCustomProperty(p: string) {
    p != "length" && !IsCanonicalInteger(p)
  }

  /** `ArrBase.hasSpecialProperties` over the list `Object.getOwnPropertyNames(array)`. */
  method HasSpecialProperties(props: seq<string>) returns (r: bool)
    ensures r <==> exists i :: 0 <= i < |props| && IsCustomProperty(props[i])
  {
    for i := 0 to |props|
      invariant forall k :: 0 <= k < i ==> !IsCustomProperty(props[k])
    {
      var p := props[i];
      if IsInteger(p) {
        continue;
      }
      if p != "length" {
        return true;
      }
    }
    return false;
  }

  /** The own property names of a plain array of `n` elements: its indices, then "length". */
  function PlainArrayPropertyNames(n: nat): (names: seq<string>)
    ensures |names| == n + 1
  {
    seq(n, (i: int) requires 0 <= i => NatToString(i)) + ["length"]
  }

  /** A plain array, however long, has no custom property. */
  lemma PlainArrayHasNoCustomProperty(n: nat)
    ensures forall i :: 0 <= i < n + 1 ==> !IsCustomProperty(PlainArrayPropertyNames(n)[i])
  {
  }

  /**
   * Canonical integer names that are not array indices (negative, or 2^32 - 1
   * and beyond) are skipped like indices: `arr = [0, 1]; arr[-1] = 5` has no
   * custom property.
   */
  lemma NonIndexIntegerNamesAreSkipped()
    ensures IsInteger("-1") && !IsCustomProperty("-1")
    ensures IsInteger("4294967295") && !IsCustomProperty("4294967295")
    ensures forall i :: 0 <= i < 4 ==> !IsCustomProperty((PlainArrayPropertyNames(2) + ["-1"])[i])
  {
    assert "-1"[1..] == "1" && IsCanonicalNumeral("1");
    assert IsCanonicalInteger("-1");
    assert IsCanonicalNumeral("4294967295");
    var names := PlainArrayPropertyNames(2) + ["-1"];
    PlainArrayHasNoCustomProperty(2);
    assert forall i :: 0 <= i < 3 ==> names[i] == PlainArrayPropertyNames(2)[i];
    assert names[3] == "-1";
  }

  /** The example `arr = [0, 1]; arr.myProp = "Hello"` has a custom property. */
  lemma CustomPropertyExample()
    ensures exists i :: 0 <= i < 4 && IsCustomProperty((PlainArrayPropertyNames(2) + ["myProp"])[i])
  {
    assert (PlainArrayPropertyNames(2) + ["myProp"])[3] == "myProp";
  }
}
