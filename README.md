# Array rep of the firebug.next DOM panel, in Dafny

This project models the array "rep" of the firebug.next DOM panel
(`lib/reps/array.js`). A rep is a renderer that the rep registry chooses for a
value. The array rep handles array-like remote objects ("grips"). What it does,
and what is modelled:

- **`arrayIterator`** turns `grip.preview.items` into the list of
  `{object, tag, delim}` items that the array template iterates. It visits at
  most `max + 1` elements. Each element gets the delimiter `", "`, or `""` on
  the last one. An element that is the items array itself is wrapped in a
  reference marker (one-level cycle detection). A rep lookup that throws is
  caught and becomes an item holding the exception. When there are more than
  `max + 1` elements and `max` is not negative, slot `max` is replaced by a
  caption reading "`<length - max>` more..." (for a negative `max`, see
  "Left out").
  `longArrayIterator` fixes `max = 300`; `shortArrayIterator` takes the
  "ObjectShortIteratorMax" preference.
- **`hasSpecialProperties`** tells whether an array has an own property other
  than `length` and the names `isInteger` accepts (canonical integer texts,
  which include non-index names such as "-1" and "4294967295"). Its inner
  `isInteger` is modelled through
  JavaScript's `parseInt(x, 10)` and `toString()` (module `JsNumbers`). It is
  proved to hold exactly of canonical integer texts.
- **`highlightObject`** decides between highlighting, a tooltip only, or
  nothing, and updates the hovered element's `title`.
- **`getItemIndex`** counts the previous siblings whose `repObject` is truthy.
- **`isArray` / `supportsObject` / `getTitle`** of `ArrBase` and `ArrayLikeObject`.

Files: `wrappers.dfy` (`Option`, `Result`), `js_numbers.dfy` (numerals,
`parseInt`, `toString`), `array_rep.dfy` (grips, the iterator, custom
properties, titles, matching) and `array_rep_dom.dfy` (highlighting and item
indices over rendered nodes).

Parameters that stand for code outside the file:

- `Env.getRep` stands for `Reps.getRep(value)` followed by reading
  `shortTag || tag`. It may fail with an exception value.
- `Env.repOfError` stands for the rep of a caught exception.
- `Env.isContainer` is the identity test `value === array`.
- `Env.captionTag` is `Reps.Caption.tag`, and `Env.more` is the localised word "more".
- `Reps.isGrip` is the `Option` around a `Grip`: `None` is a value it rejects.
- The preferences and options ("ObjectShortIteratorMax", "multiHighlightLimit")
  are plain parameters.
- `getRealObject` is given as its result.
- `Object.getOwnPropertyNames(array)` is given as the list of names.

Two consequences of the code as written:

- `arrayIterator` reads `grip.preview.items` unconditionally
  (lib/reps/array.js:47). A value without a preview, such as a native array
  handed over by ArrNative's templates, throws a TypeError, and `Iterate`
  returns `None`; it does so also when `items` is missing.
- The truncation test is `length > max + 1` (lib/reps/array.js:74), so a list
  of exactly `max + 1` elements is shown whole, without a caption.

## Model

| member | source | states |
|---|---|---|
| `ArrayRep.ArrayIterator` | lib/reps/array.js:46-85 | the result is `Iterate(grip, max, env)`: `None` when `preview` or `preview.items` is missing, otherwise the items of `RenderItems` |
| `ArrayRep.LongArrayIterator` | lib/reps/array.js:38-40 | the iterator with `max` fixed at 300 |
| `ArrayRep.ShortArrayIterator` | lib/reps/array.js:42-44 | the iterator with the short-iterator preference as `max` |
| `ArrayRep.ElementItem` | lib/reps/array.js:52-71 | one turn of the loop: delimiter "" exactly on the last element, else ", "; never a caption; the element (a reference marker exactly when it is the container) with its rep's tag when the lookup succeeds, and the caught exception with the exception's rep's tag exactly when it fails |
| `ArrayRep.Iterate` | lib/reps/array.js:46-85 | `None` (the TypeError) exactly when `preview` or `preview.items` is missing; otherwise as many items as the loop visits: 0 for a negative `max`, else the smaller of the length and `max + 1` |
| `ArrayRep.Walk` | lib/reps/array.js:50-72 | the loop's first `n` turns push exactly `n` items, item `k` being the item of element `k` |
| `ArrayRep.RenderItems` | lib/reps/array.js:50-82 | the item count is 0 for a negative `max`, the length when it is at most `max + 1`, and `max + 1` otherwise |
| `ArrayRep.Delimiters` | lib/reps/array.js:54 | every item but the last has delimiter ", " and the last has "" (in both the shown-whole and the truncated case) |
| `ArrayRep.ElementsInOrder` | lib/reps/array.js:50-72 | untruncated, with `max >= 0`: one item per element; in every case each item other than the caption is the item of the element at the same index |
| `ArrayRep.TruncationCaption` | lib/reps/array.js:74-82 | truncated: there are `max + 1` items, and item `max` is the caption with tag `Reps.Caption.tag` and delimiter "", whose leading number (as `parseInt` reads it) is `length - max` |
| `ArrayRep.CaptionCountsRemaining` | lib/reps/array.js:77-78 | `parseInt` of the caption text "N more..." is N |
| `ArrayRep.RepLookupIsPerElement` | lib/reps/array.js:52-71 | changing the rep lookup leaves the item count unchanged, and every element whose lookup outcome is unchanged keeps its item, so one failure affects only its own item |
| `ArrayRep.NeverReadsPastMax` | lib/reps/array.js:50 | two lists of equal length that agree on indices `0..max` give the same items |
| `ArrayRep.SelfContainingArray` | lib/reps/array.js:57-63 | the list `a = [a]` gives one reference-marker item with delimiter "" |
| `ArrayRep.IsInteger` | lib/reps/array.js:109-115 | `isInteger(x)` holds if and only if `x` is "0" or `-?[1-9][0-9]*`, so "01", "+1", "-0" and " 1" are rejected while "-1" and "4294967295", which are not array indices, are accepted |
| `ArrayRep.CanonicalIntegerRoundTrips` | lib/reps/array.js:111-114 | for a canonical integer text, `parseInt` yields a number and its `toString()` is the text again |
| `ArrayRep.HasSpecialProperties` | lib/reps/array.js:108-133 | true if and only if some property name is neither "length" nor a canonical integer text |
| `ArrayRep.NonIndexIntegerNamesAreSkipped` | lib/reps/array.js:123-125 | the names "-1" and "4294967295" are not array indices, yet `isInteger` accepts them, so they are skipped and do not count as custom properties; `[0, 1]` with `arr[-1] = 5` has none |
| `ArrayRep.PlainArrayHasNoCustomProperty` | lib/reps/array.js:117-132 | the own names of a plain array of any length (its indices, then "length") contain no custom property |
| `ArrayRep.CustomPropertyExample` | lib/reps/array.js:102-104 | `[0, 1]` with an added `myProp` has a custom property |
| `ArrayRep.ArrayLikeIsArray` | lib/reps/array.js:290-299 | true if and only if the value is a grip with a preview whose kind is "ArrayLike"; a grip without a preview is refused |
| `ArrayRep.BaseIsArray` | lib/reps/array.js:183-185 | the base rep's `isArray` is false for every value |
| `ArrayRep.BaseSupportsObject` | lib/reps/array.js:34-36 | the base rep supports no value |
| `ArrayRep.ArrayLikeSupportsObject` | lib/reps/array.js:34-36 | `ArrayLikeObject` supports exactly the grips with an "ArrayLike" preview |
| `ArrayRep.BaseTitle` | lib/reps/array.js:30-32 | the title is "[", the decimal length, "]"; `parseInt` of the text between the brackets is the length |
| `ArrayRep.ArrayLikeTitle` | lib/reps/array.js:286-288 | the title is the grip's class name |
| `JsNumbers.NatToString` | lib/reps/array.js:77 | the number-to-text conversion used by the caption and the title gives a canonical numeral (digits, no leading zero except "0") |
| `JsNumbers.ParseInt` | lib/reps/array.js:111 | `parseInt(x, 10)` is NaN (`None`) when the text after the leading white space is empty or starts with neither a digit nor a sign |
| `JsNumbers.ParseIntOfDigitStart` | lib/reps/array.js:111 | for a text starting with a digit, `parseInt` is the value of its leading run of digits |
| `JsNumbers.IntToString` | lib/reps/array.js:114 | `y.toString()` is a canonical integer text, with a leading minus sign exactly when `y` is negative |
| `JsNumbers.IntToStringReadsBack` | lib/reps/array.js:111-114 | `parseInt` of any integer's `toString()` text is that integer |
| `JsNumbers.ParseIntOfNatToString` | lib/reps/array.js:111 | `parseInt` of a number's text followed by a non-digit gives the number back |
| `JsNumbers.NatToStringOfDigitsValue` | lib/reps/array.js:114 | a canonical numeral is exactly the text `toString()` writes for its value |
| `ArrayRepDom.HighlightDecision` | lib/reps/array.js:161-180 | highlighting happens if and only if there is a real object and the limit is not positive or not exceeded; when suppressed, the tooltip is chosen if and only if the target is a bracket |
| `ArrayRepDom.SuppressionIsMonotone` | lib/reps/array.js:163 | if an array of length `n` is suppressed, every longer one is too |
| `ArrayRepDom.HighlightObject` | lib/reps/array.js:156-181 | on highlight, the title is removed and the real object is passed to the inspector; on tooltip-only, the title becomes the tooltip and no highlight call is made; otherwise the title is unchanged and no call is made |
| `ArrayRepDom.GetItemIndex` | lib/reps/array.js:87-95 | the index is the number of previous siblings whose `repObject` is truthy, and at most the number of previous siblings |
| `ArrayRepDom.EarlierItemHasSmallerIndex` | lib/reps/array.js:87-95 | an earlier sibling whose `repObject` is truthy has a strictly smaller index, so items get distinct indices in document order |

## Left out

- The Domplate `tag`, `shortTag` and `titleTag` templates (lib/reps/array.js:27-28, 194-226, 247-277) are markup, not logic.
- The event handlers `onToggleProperties`, `onClickBracket` and `onClickTitle` (lib/reps/array.js:135-154, 228-231, 279-284) are DOM and CSS manipulation.
- `ArrNative.isArray` (lib/reps/array.js:233-237) is not modelled. It rests on the host builtins `Array.isArray` and `Object.prototype.toString`.
- The rep registry (`Reps.getRep`, `Reps.isGrip`, `Reps.registerRep`, registration order) is not part of this model. Its code is in reps.js, which is not shown, so those calls are parameters.
- `Locale.$STR` / `$STRF`, `prefs` and `Options.get` become plain parameters.
- ArrayRepDom.HighlightObject: the module's `require` lines (lib/reps/array.js:5-11) bind none of `Options`, `Css` and `Inspector`, which `highlightObject` uses (lib/reps/array.js:162-180), and the file is in strict mode. The model assumes the host supplies these names; otherwise the method would throw a ReferenceError at line 162 before deciding anything.
- `getRealObject`, `Inspector.highlightObject` and `Object.getOwnPropertyNames` become parameters or results.
- ArrayRep.IsInteger: integers are unbounded, so `isInteger` accepts every canonical integer text. In JavaScript, `parseInt` rounds to the nearest double and `toString()` switches to exponent form from 1e21. For a canonical name of 1e21 or more, or one whose text is not what `toString()` writes for the double nearest its value (such as "9007199254740993", which reads back as "9007199254740992"), `isInteger` is false in the source but true here.
- ArrayRep.RenderItems: for a negative `max` with `length > max + 1`, the source still runs `items[max] = {...}`, which stores the caption under a non-index property such as "-1" of the returned array. The model returns the list of index entries only, because the array template iterates indices and never shows that property.
- ArrayRep.ArrayIterator: a throw from inside the `catch` handler (the rep lookup for the exception itself failing) would escape the source's loop. Here `Env.repOfError` always returns a rep, so that case is not modelled.
- ArrayRep.ArrayIterator: `max` is an integer. A preference that is missing or not a number (`undefined`, `NaN`) is not modelled.
- ArrayRepDom.GetItemIndex: the sibling chain is modelled as immutable nodes. DOM mutation during the walk is not modelled.
- ArrayRepDom.HighlightObject: the real object is a sequence, so its `length` is always defined. A real object without a numeric `length` is not modelled.
- Strings are sequences of Unicode scalar values, not the UTF-16 code units of JavaScript.
- The constant members `className` and `toggles` carry no logic.
