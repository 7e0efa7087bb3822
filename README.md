# Card layer and drag-and-drop reorder of the decker client

This project models, in Dafny, the logic core of the browser client's card
layer and of its drag-and-drop list reordering.

- **Reorder** (`test_logic.js`, `debug_insert.js`). The dragged element is
  spliced out of the list. The drop index is corrected for the shift that
  removal causes: one less when the element came from in front of the
  target, one more for an `insertAfter` drop. The element is then spliced
  back in. `Reorder.Move` follows the general script and
  `Reorder.MoveBefore` follows the insert-before-only script. Both are
  proved equal to `Reordered`. That specification is stated without
  splicing: the element moves to a final slot (`MoveTo`, an index map),
  and every other element keeps its relative order. `Splice` gives the
  semantics of the two `Array.prototype.splice` calls, including how
  `splice` clamps a start past the end.
- **Card registry** (`CardFactory` in `cards.js`). A class with the
  `registeredTypes` Map and the `defaultOptions` object as fields. The
  Map's insertion order is kept as `order`. `Register` is specified by the
  pure transition `Registered` on a `Registry` value, and the lemmas about
  registration are stated on that value. The default constructor performs
  the six registrations the module makes when it loads. A created card's
  type is the string its class passes to the base constructor
  (`KindType`), not the name the class was registered under.
- **Card state** (`BaseCard` in `cards.js`). The FIFO animation queue and
  the destroyed flag. The DOM element is reduced to two booleans: whether
  the card has an element, and whether that element has a parent.
  `destroy` requests the exit animation behind any request already
  queued, and the queue starts only its front request before it is
  cleared. So when a request is pending, that request's effect starts, and
  the exit animation, whose callback removes the card's wrapper, never
  does. `Destroy` returns the effect that starts and states this case.
- **Lookups** (`cards.js`). The shop's status colour and the three icon
  tables with their fallbacks.

Two behaviours of the reorder code are easy to misread, and the model
keeps both as the code has them:

- Dropping element `i` *after* itself is not a no-op. The code moves the
  element one slot to the right. Only the last element stays put, because
  `splice` clamps the insertion index (`DropAfterSelfSwapsWithNext`).
- Out-of-range indices raise no error, because the code never checks them.
  The index ranges are therefore preconditions of `Move`, `MoveBefore` and
  `Reordered`, not an error result.

## Model

| member | source | states |
|---|---|---|
| `Splice.ClampStart` | test_logic.js:25 | `splice`'s start is at most the length: an in-range start is kept, a start past the end becomes the end, and a negative start counts back from the end, stopping at 0 |
| `Splice.SpliceOut` | test_logic.js:14 | `splice(i, 1)` gives one element fewer: elements before `i` keep their index, later ones shift left by one, and the removed element is the only one lost from the multiset |
| `Splice.SpliceIn` | test_logic.js:25 | `splice(start, 0, x)` gives one element more: `x` sits at the clamped start, earlier elements stay, later ones shift right, and the multiset gains exactly `x` |
| `Reorder.InsertionIndex` | test_logic.js:17-23 | for a target other than the dragged element, the adjusted index is the target's slot in the list with the dragged element removed (`Before`), or the slot just behind it (`After`); dropping an element onto itself gives its own index, plus one for `After` |
| `Reorder.FinalIndex` | test_logic.js:17-25 | the slot the dragged element really lands in (the adjusted index after `splice` clamps it) is always inside the list |
| `Reorder.Move` | test_logic.js:13-25 | the general splice-out / adjust / splice-in algorithm with the before/after flag computes `Reordered`, keeps the length, and permutes the elements |
| `Reorder.MoveBefore` | debug_insert.js:11-19 | the before-only algorithm, whose adjusted index is `dragged < target ? target - 1 : target` with no after-offset, equals `Reordered` with `Before` and permutes the elements |
| `Reorder.SpliceMatchesMoveTo` | test_logic.js:14-25 | splicing an element out and back in at any start equals the index-map move `MoveTo` to the slot `splice` clamps that start to, and preserves the multiset |
| `Reorder.ReorderedIsPermutation` | test_logic.js:13-25 | a reorder keeps the length and the multiset of elements: nothing is duplicated or dropped |
| `Reorder.InsertionIndexOvershoot` | test_logic.js:17-25 | the adjusted index is at most the list length. It passes the end of the reduced list exactly when the last element is dropped after itself, and then the clamp puts it back at the end |
| `Reorder.ReorderedMovesOnlyDragged` | test_logic.js:14-25 | the dragged element ends up at the final index, and removing it from the result gives the input with it removed, so all other elements keep their relative order |
| `Reorder.ReorderedLandsBesideTarget` | test_logic.js:17-25 | for a target other than the dragged element, `Before` puts the dragged element directly in front of the target element and `After` directly behind it |
| `Reorder.AfterIsBeforeNext` | test_logic.js:17-23 | when the target is not the dragged element, dropping after target `t` gives the same list as dropping before `t + 1` |
| `Reorder.AdjacentDropsAreNoOps` | test_logic.js:17-25 | dropping `i` before `i`, before `i + 1`, or after `i - 1` leaves the list unchanged |
| `Reorder.MoveToSameSlot` | test_logic.js:14-25 | moving an element to its own slot leaves the list unchanged |
| `Reorder.DropAfterSelfSwapsWithNext` | test_logic.js:17-25 | dropping `i` after itself swaps it with its successor; only the last element stays put |
| `Reorder.DropAfterSelfExample` | test_logic.js:17-25 | `[A,B,C]` with index 1 dropped after index 1 becomes `[A,C,B]` |
| `Reorder.TestLogicCases` | test_logic.js:5-55 | the script's two test cases and their expected results: index 2 before index 0 gives `[C,A,B,D,E]`, and index 0 after index 2 gives `[B,C,A,D,E]` |
| `Reorder.DebugInsertCases` | debug_insert.js:4-42 | the script's two test cases and their expected results: index 2 before index 0 gives `[C,A,B,D,E]`, and index 0 before index 3 gives `[B,C,A,D,E]` |
| `Cards.EffectOf` | cards.js:135-151 | the queue's dispatch starts no effect exactly for unknown animation types, and starts the exit effect exactly for `'exit'` |
| `Cards.BaseCard.constructor` | cards.js:9-17 | a new card stores its type, data and options, has no element, an empty queue, and is not destroyed |
| `Cards.BaseCard.ProcessAnimationQueue` | cards.js:131-153 | with a non-empty queue and an element, exactly the front request is removed and its effect started; otherwise nothing changes |
| `Cards.BaseCard.Animate` | cards.js:123-126 | the request joins the back of the queue and the queue is processed once, so with an element the front request is taken off |
| `Cards.BaseCard.Destroy` | cards.js:284-297 | the card is marked destroyed and its queue is empty afterwards. With an attached element it returns the effect of the queue's front request once `'exit'` has been pushed behind any pending ones, and otherwise none. The exit effect starts exactly when the element is attached and the queue was empty or its front request was itself an exit |
| `CardFactories.KindType` | cards.js:398-809 | the type string each of the six card classes passes to `super` (lines 398, 446, 655, 723, 780 and 809) is one of the six built-in type names |
| `CardFactories.KindTypeInjective` | cards.js:398-809 | across the six `super` calls (lines 398, 446, 655, 723, 780 and 809), two card classes give the same type string exactly when they are the same class |
| `CardFactories.MergeOptions` | cards.js:324-325 | the merged options hold every default key and every caller key; a key the caller gives takes the caller's value, and any other key keeps the default |
| `CardFactories.UnknownTypeMessage` | cards.js:320-322 | the error for an unknown type starts with `Unknown card type: ` followed by that type |
| `CardFactories.RegisteredIsWellFormed` | cards.js:310-313 | registration keeps the tables consistent: the Map's keys are listed once each in order, and every registered type has defaults |
| `CardFactories.RegisterReplacesOnlyItsType` | cards.js:310-313 | after `register(t, C, d)`, `t` is registered with exactly `C` and `d`. A new `t` joins the end of the key order and a re-registered `t` keeps its place. No other type's class or defaults change |
| `CardFactories.InitialRegistrationOrder` | cards.js:857-886 | after module load, exactly `hardware, program, shop, contract, character-stat, project` are registered, in that order |
| `CardFactories.InitialRegistryWellFormed` | cards.js:857-886 | the tables after module load are consistent |
| `CardFactories.InitialRegistrationTables` | cards.js:857-886 | the class of each built-in type; `program` defaults to `draggable: true`, `character-stat` to `interactive: false`, and the other four to `animate` and `interactive` |
| `CardFactories.CardFactory.Empty` | cards.js:304-305 | the static tables start empty |
| `CardFactories.CardFactory.constructor` | cards.js:857-886 | the factory after the six module-level registrations holds the initial tables |
| `CardFactories.CardFactory.Register` | cards.js:310-313 | `register` updates the tables as `Registered` says and keeps them consistent |
| `CardFactories.CardFactory.GetRegisteredTypes` | cards.js:341-343 | returns every registered type and nothing else, each once |
| `CardFactories.CardFactory.IsRegistered` | cards.js:348-350 | holds exactly for the types that `getRegisteredTypes` lists |
| `CardFactories.CardFactory.Create` | cards.js:318-329 | fails exactly on an unregistered type, with the message that names it. Otherwise it returns a new card of the registered class, carrying the caller's data and the merged options, with no element, an empty queue and not destroyed |
| `CardFactories.CardFactory.CreateBatch` | cards.js:334-336 | one new card per data item, in order, each built as `create` builds it (a distinct new card with the data item, the class's type, the merged options, no element, an empty queue and not destroyed). It fails only when the type is unknown and there is at least one item |
| `CardLookups.StatusColor` | cards.js:701-706 | `#f00` exactly for a falsy level, `#ff0` exactly for level ≥ 5, `#0f0` exactly for 3 ≤ level < 5, `#0ff` exactly for the other non-zero levels |
| `CardLookups.HardwareIconPath` | cards.js:427-438 | a known hardware type gets its table icon; the generic chip icon appears exactly for unknown types |
| `CardLookups.ShopIconPath` | cards.js:708-715 | a known item type gets its table icon; the generic icon appears exactly for unknown types |
| `CardLookups.ProgramIconPosition` | cards.js:626-647 | a known program class gets its sprite cell; `"0 0"` appears exactly for class 0 and for classes outside the table |

## Left out

- DOM work in `cards.js` is not modelled: `createElement`, the `render` templates, `applyBaseClasses`, `bindEvents`, the re-render in `update`, `setLoading`, `setDisabled`, `createCardContainer` and `addCardsToContainer`. It is presentation through browser APIs. The element is represented only by the `hasElement` and `isAttached` flags.
- The animation effects and their `setTimeout` callbacks (`cards.js:158-251`) are not modelled. Those callbacks call `processAnimationQueue` again after a delay. Only the queue bookkeeping is modelled, and the effect an entry starts is returned as a value.
- The exit animation's callback in `Destroy`, which removes the wrapper from the page, is not modelled. `eventHandlers.clear()` is not modelled either, because the handler table is DOM wiring.
- The drag event handlers of `ProgramCard` (`cards.js:566-604`) and its `dragHandlers` bindings are not modelled. They log, toggle a CSS class and forward to callbacks; they never call the reorder algorithm.
- `ProgramCard` helpers that read globals outside this file (`checkIfDefault`, `getProgramName`, `getProgramSize`) are not modelled. Neither is the floating-point percentage of `CharacterStatCard`.
- `validation.js` is not part of this model. It only probes for globals and logs the result.
- `console.log` output is not modelled, nor are the `window` and `module.exports` assignments.
- `CardFactories.CardFactory.Create`: a card class is always one of the six classes, so the case where `register` is given a falsy class is not modelled. In JavaScript, `create` would throw for such a type even though `isRegistered` holds.
- `CardFactories.MergeOptions`: option values are booleans, integers, strings and named callbacks. Other JavaScript values, and the prototype of the options objects, are not modelled.
- `CardLookups.StatusColor`: levels are integers or absent. Other falsy values (`NaN`, `''`, `false`) and fractional levels are not modelled.
- `CardLookups.HardwareIconPath`: a type that names an `Object.prototype` property, such as `'constructor'`, finds that property in the JavaScript table instead of the fallback. The model treats such a type as unknown. `CardLookups.ShopIconPath` and `CardLookups.ProgramIconPosition` are modelled the same way.
- `CardLookups.ProgramIconPosition`: program classes are integers. A numeric string key such as `'3'` behaves like `3` in JavaScript and is not modelled separately.
