# Coffee shooting range: a Dafny model of the game core and checkout form

The system is a browser storefront presented as a shooting gallery. Coffee
products float as mugs in a 3D scene. Shooting a product mug switches the
game to that product's variants. Shooting a variant mug puts the variant in
the order (cart) and scores its price. A checkout form then collects an
address and a card.

This project models three source files:

- `app/components/game/ShootingRange.tsx`. It covers the target catalog
  (module `Catalog`) and the click handler (module `ShootingRange`). The
  handler walks up the scene's parent chain to find the hit mug, switches
  from "products" to "variants" mode, merges a variant into the cart, counts
  shots and score, and returns to "products" mode on a timer.
- `app/components/game/CartDisplay.tsx`. It covers the cart line record, the
  cart total and the CLEAR button (module `CartDisplay`).
- `app/components/checkout/CheckoutForm.tsx`. It covers the three-step form
  (selection, address, card) and its handlers (module `CheckoutForm`).

`wrappers.dfy` holds the `Option` datatype used for the source's
null/undefined values.

Modelling choices:

- **Prices are integer cents.** The `/ 100` conversions and `Math.round(price * 100)`
  disappear, so menu-item prices, cart prices, the score and the total are
  all exact integers.
- **The scene graph is a chain of tags.** An intersection is the sequence of
  `userData.menuItemId` values from the hit node up through its parents to
  the root (`Chain`). The intersections arrive nearest first. JavaScript
  truthiness is kept: an empty-string tag does not count as an id.
- **Pure transitions and a class.** The click, the two catalog effects and
  the reset timer, and the order panel's CLEAR button, are pure transitions
  on a `RangeState` value (`Click`, `Sync`, `ResetFired`, `ClearPressed`). The lemmas are stated about these transitions. The
  class `ShootingRange.ShootingRange` holds the component's state as fields;
  each of its handlers is proved to change its fields exactly as the
  matching transition does. The page's `cart` and `lastAdded`, which the
  component writes through `setCart` and `setLastAdded`, are fields of that
  class.
- **The loop and the hit handling are split.** The `while` loop of the
  handler is the method `WalkUp`, proved against the specification
  `ResolvedDepth`. In the source the hit is handled inside the loop body once
  `mugIndex` is found, and the loop then ends. The model handles the hit
  right after the loop (`RegisterHit`), which has the same effect.
- **Checkout network results are inputs.** In `CheckoutForm` saved addresses
  and cards are represented by their ids. A network result is an
  `Option<string>`: `None` or an empty id is a failed call and leaves the
  state unchanged. A handler returns which parent callback it invoked
  (`Complete(addressId, cardId)`, `Cancel` or none).
- **Hits and misses.** A "variants" hit always adds one unit of the hit
  variant to the cart; there is no other kind of hit. A tagged node whose id
  is not in the current catalog does not stop the walk: the handler keeps
  looking at its ancestors. In "products" mode a hit on an id with no
  fetched product behind it (a placeholder mug) changes nothing and is not
  a miss. Checkout ends by calling `onComplete` with the selected ids.

## Model

| member | source | states |
|---|---|---|
| `CartDisplay.TotalAppend` | app/components/game/CartDisplay.tsx:28-31 | appending a line raises the total by exactly price × quantity |
| `CartDisplay.TotalConcat` | app/components/game/CartDisplay.tsx:28-31 | the total of two concatenated carts is the sum of their totals (the fold is a sum over lines) |
| `CartDisplay.TotalIncrement` | app/components/game/CartDisplay.tsx:28-31 | raising one line's quantity by 1 raises the total by exactly that line's price |
| `CartDisplay.TotalNonNegative` | app/components/game/CartDisplay.tsx:28-31 | with non-negative prices and quantities the total is non-negative |
| `CartDisplay.ClearAll` | app/components/game/CartDisplay.tsx:51-54 | CLEAR leaves an empty cart whose total is 0 and the notification "Cleared all items" |
| `Catalog.ProductItem` | app/components/game/ShootingRange.tsx:228-232 | a product's menu item has the product's id and name and its first variant's price in cents |
| `Catalog.ProductItems` | app/components/game/ShootingRange.tsx:224-232 | no more items than products; item prices non-negative when the variant prices are |
| `Catalog.ProductItemsMembers` | app/components/game/ShootingRange.tsx:224-232 | an item is in the product catalog iff some product with variants maps to it (id, name, first variant's price) |
| `Catalog.ProductItemsConcat` | app/components/game/ShootingRange.tsx:224-232 | filter-then-map distributes over concatenation, so items keep input order and each product contributes once |
| `Catalog.ProductItemsSingle` | app/components/game/ShootingRange.tsx:225-227 | a single product contributes its item exactly when it has variants |
| `Catalog.ProductCatalog` | app/components/game/ShootingRange.tsx:234-239 | the product catalog is the product items when some product has variants, the placeholder list when none has, and never empty |
| `Catalog.VariantCatalog` | app/components/game/ShootingRange.tsx:247-253 | one item per variant of the selected product, same order, same id, name and price |
| `ShootingRange.IndexOf` | app/components/game/ShootingRange.tsx:293 | `findIndex`: -1 exactly when the id is absent, otherwise the first position holding it |
| `ShootingRange.FindProduct` | app/components/game/ShootingRange.tsx:299-301 | the product found is the first fetched product with the hit id; nothing is found only when the list is not loaded or has no such id |
| `ShootingRange.ResolvedDepth` | app/components/game/ShootingRange.tsx:283-369 | the walk stops at the first node up the chain whose truthy tag is in the catalog; tagged nodes not in the catalog do not stop it; no stop means no node matches |
| `ShootingRange.WalkUp` | app/components/game/ShootingRange.tsx:283-369 | the loop finds a mug exactly when `ResolvedDepth` does, and then returns that node's id and its first catalog position |
| `ShootingRange.Merged` | app/components/game/ShootingRange.tsx:328-343 | an existing line with the hit id gets quantity + 1 and every other line stays; otherwise the new line is appended |
| `ShootingRange.MergedKeepsIdsUnique` | app/components/game/ShootingRange.tsx:328-343 | merging keeps cart ids distinct, and the set of ids grows by exactly the hit id |
| `ShootingRange.MergedTotal` | app/components/game/ShootingRange.tsx:319-343 | merging a quantity-1 line raises the total by the unit price of the line bumped or added |
| `ShootingRange.MergeTwiceFromEmpty` | app/components/game/ShootingRange.tsx:328-343 | two hits on the same variant from an empty cart give one line of quantity 2 |
| `ShootingRange.Click` | app/components/game/ShootingRange.tsx:261-378 | every click adds one shot and leaves the catalog as it was |
| `ShootingRange.Sync` | app/components/game/ShootingRange.tsx:221-257 | the catalog effects change nothing but the catalog; in "products" mode a loaded product list rebuilds it as `ProductCatalog` of that list, and an unloaded one changes nothing |
| `ShootingRange.ResetFired` | app/components/game/ShootingRange.tsx:349-352 | a fired reset timer returns to "products" mode with no product selected, consumes one pending timer and changes nothing else |
| `ShootingRange.ClickMiss` | app/components/game/ShootingRange.tsx:281-376 | with no intersection, or no catalog ancestor of the nearest one, the click is a "Miss!" and nothing else but the shot count changes |
| `ShootingRange.ClickNearestOnly` | app/components/game/ShootingRange.tsx:283 | only the nearest intersection matters; farther ones never change the outcome |
| `ShootingRange.ClickSelectsProduct` | app/components/game/ShootingRange.tsx:297-307 | in "products" mode a resolved id naming a fetched product selects it, switches to "variants" and leaves cart and score alone |
| `ShootingRange.ClickOnPlaceholder` | app/components/game/ShootingRange.tsx:297-307 | in "products" mode a resolved id with no fetched product changes nothing but the shot count and is not a miss |
| `ShootingRange.ClickAddsVariant` | app/components/game/ShootingRange.tsx:308-352 | in "variants" mode a resolved hit scores the variant's cents, merges it into the cart (length unchanged or +1, total up by one unit price) and starts one reset timer |
| `ShootingRange.ClickKeepsValid` | app/components/game/ShootingRange.tsx:261-378 | clicks keep cart ids distinct, quantities ≥ 1, prices and score non-negative, and a selected product whenever the mode is "variants" |
| `ShootingRange.SyncKeepsValid` | app/components/game/ShootingRange.tsx:221-257 | catalog rebuilds keep that invariant |
| `ShootingRange.SyncInVariantsMode` | app/components/game/ShootingRange.tsx:244-257 | in "variants" mode the targets become exactly the selected product's variants (same count, order, id, name and price); the product catalog is not rebuilt |
| `ShootingRange.ResetKeepsValid` | app/components/game/ShootingRange.tsx:349-352 | the timed reset keeps that invariant |
| `ShootingRange.ClearPressed` | app/components/game/CartDisplay.tsx:51-54 | CLEAR empties the page's cart (total 0), sets the notification "Cleared all items" and changes nothing else in the game |
| `ShootingRange.ClearKeepsValid` | app/components/game/CartDisplay.tsx:51-54 | clearing the cart keeps the game invariant |
| `ShootingRange.ValidTotalNonNegative` | app/components/game/CartDisplay.tsx:28-31 | in every state the game can reach the cart total is non-negative |
| `ShootingRange.LatteRound` | app/components/game/ShootingRange.tsx:221-378 | product hit through a stale tag, then two variant hits: one cart line of quantity 2, total and score 900 cents, 3 shots |
| `ShootingRange.ShootingRange.constructor` | app/components/game/ShootingRange.tsx:197-204 | starts in "products" mode with the placeholder catalog, zero shots and score, and an empty cart |
| `ShootingRange.ShootingRange.MergeIntoCart` | app/components/game/ShootingRange.tsx:328-343 | the in-place cart update produces exactly `Merged` of the old cart |
| `ShootingRange.ShootingRange.HandleClick` | app/components/game/ShootingRange.tsx:261-378 | the handler's field updates are exactly `Click` of the old state, and the invariant is kept |
| `ShootingRange.ShootingRange.RegisterHit` | app/components/game/ShootingRange.tsx:295-361 | the hit branch updates the fields exactly as `ApplyHit` describes |
| `ShootingRange.ShootingRange.SyncCatalog` | app/components/game/ShootingRange.tsx:221-257 | the two effects update the catalog exactly as `Sync` does, keeping the invariant |
| `ShootingRange.ShootingRange.ResetTimerFires` | app/components/game/ShootingRange.tsx:349-352 | the timer callback updates the fields exactly as `ResetFired` does |
| `ShootingRange.ShootingRange.ClearCart` | app/components/game/CartDisplay.tsx:49-54 | the CLEAR button, shown only for a non-empty cart, updates the page's cart and notification exactly as `ClearPressed` does, keeping the invariant |
| `CheckoutForm.WithField` | app/components/checkout/CheckoutForm.tsx:75-78 | editing one address field sets that field and leaves every other field unchanged |
| `CheckoutForm.InitialStep` | app/components/checkout/CheckoutForm.tsx:27-33 | the form opens on selection iff both lists are non-empty, on the address form iff there is no address, and on the card form iff there are addresses but no card |
| `CheckoutForm.DefaultId` | app/components/checkout/CheckoutForm.tsx:35-40 | the initial selection is the first id offered, or "" when none is |
| `CheckoutForm.CheckoutForm.constructor` | app/components/checkout/CheckoutForm.tsx:27-54 | initial step, default selections and the blank address form (country "US"); the readiness invariant holds whenever the given address and card ids are non-empty |
| `CheckoutForm.CheckoutForm.ChangeAddressField` | app/components/checkout/CheckoutForm.tsx:75-78 | only the edited field of the new address changes, and readiness is kept |
| `CheckoutForm.CheckoutForm.SubmitAddress` | app/components/checkout/CheckoutForm.tsx:81-101 | on success the new id is selected, then `onComplete(newId, selectedCardId)` if cards exist or a card id is set, else the card step; on failure nothing changes |
| `CheckoutForm.CheckoutForm.CreateCard` | app/components/checkout/CheckoutForm.tsx:135-149 | on success the new card is selected and `onComplete(selectedAddressId, newId)` is called; on failure nothing changes |
| `CheckoutForm.CheckoutForm.SelectionComplete` | app/components/checkout/CheckoutForm.tsx:162-164 | completing from selection passes exactly the selected address and card ids, both non-empty when the form is ready |
| `CheckoutForm.CheckoutForm.CancelSelection` | app/components/checkout/CheckoutForm.tsx:233-238 | CANCEL on the selection screen calls `onCancel` |
| `CheckoutForm.CheckoutForm.ChooseAddress` | app/components/checkout/CheckoutForm.tsx:176-180 | picking an offered address selects it |
| `CheckoutForm.CheckoutForm.ChooseCard` | app/components/checkout/CheckoutForm.tsx:212-216 | picking an offered card selects it |
| `CheckoutForm.CheckoutForm.OpenAddressForm` | app/components/checkout/CheckoutForm.tsx:187-192 | ADD NEW ADDRESS moves to the address step |
| `CheckoutForm.CheckoutForm.OpenCardForm` | app/components/checkout/CheckoutForm.tsx:224-229 | ADD NEW CARD moves to the card step |
| `CheckoutForm.CheckoutForm.BackFromAddress` | app/components/checkout/CheckoutForm.tsx:360-368 | BACK from the address step goes to selection if addresses exist, otherwise cancels |
| `CheckoutForm.CheckoutForm.BackFromCard` | app/components/checkout/CheckoutForm.tsx:426-434 | BACK from the card step goes to selection if cards exist, otherwise cancels |
| `CheckoutForm.CheckoutForm.ReceiveCards` | app/components/checkout/CheckoutForm.tsx:15-40 | a re-fetched card list replaces the prop while the selected card id is kept |
| `CheckoutForm.CheckoutForm.ReceiveCardsSelectingFirst` | app/components/checkout/CheckoutForm.tsx:38-40 | corrected re-render: an empty card selection takes the first re-fetched card, and readiness is kept when the re-fetched ids are non-empty |
| `CheckoutForm.RefreshedCardNotSelected` | app/components/checkout/CheckoutForm.tsx:152-164 | one address and no card, refresh brings a card, BACK, COMPLETE: `onComplete("addr_1", "")` |
| `CheckoutForm.RefreshedCardSelected` | app/components/checkout/CheckoutForm.tsx:152-164 | the same steps with the corrected re-render complete with the refreshed card |

The readiness invariant (`CheckoutForm.CheckoutForm.Ready`) says that the
form always holds real ids where the next completion will use them. The
selection screen holds both an address id and a card id. The address step
holds a card id whenever cards exist. The card step holds an address id.
The constructor establishes it when the ids it is given are non-empty.
Every handler keeps it, except `ReceiveCards`, and `ReceiveCardsSelectingFirst`
when a re-fetched id is empty. The handlers that call `onComplete` are proved
to pass two non-empty ids whenever the form was ready.

## Findings

| source | as written | input that shows it | evidently intended | confidence | as-written member | corrected member |
|---|---|---|---|---|---|---|
| app/components/checkout/CheckoutForm.tsx:38-40 | `selectedCardId` is set from `cards` only once, when the form mounts. When REFRESH (152-160) re-fetches the cards, the id stays "" if the form opened with no card. | one saved address and no card: the form opens on the card step. A card is entered in the collection window, REFRESH brings back one card, then BACK goes to selection because cards now exist. COMPLETE CHECKOUT then calls `onComplete("addr_1", "")`. | the card list shown on the selection screen has a card selected, so completion passes a real card id | medium; not executed | `CheckoutForm.RefreshedCardNotSelected` | `CheckoutForm.CheckoutForm.ReceiveCardsSelectingFirst` |

## Left out

- Ray casting is left out: `setFromCamera`, `intersectObjects` and the normalised-device-coordinate arithmetic are floating-point three.js calls. The model receives the intersections as tag chains instead.
- Display formatting is left out: `toFixed(2)`, the dollar text of `lastHit`, and the float price conversions are replaced by integer cents. `lastHit` is a `HitNote` value, not its rendered text.
- `getMugPosition` and all JSX rendering, the sky and clouds, lighting, `MouseHelper`, mobile detection, the audio hook and the `"mug-shot"` window event are left out. They only present things and change no modelled state.
- Timers are reduced to discrete steps. The 1.5 s return to "products" mode is the separate step `ResetTimerFires`, which can only run after a variant hit has started a timer. Nothing here models elapsed time. The 2 s clearing of the `lastAdded` notification and the 750 ms `isRefreshing` flag are not modelled.
- React scheduling is simplified. Batched state updates are applied directly in the handler. The two catalog effects are the separate step `SyncCatalog`, which the caller runs after a render. In between, a click sees the catalog of the previous mode, as it does in the source.
- `ShootingRange.ShootingRange.MergeIntoCart` models the cart as a sequence of line values. The source copies the array but bumps the `quantity` of the line object it shares with the previous array (line 337). That sharing is not captured, so neither is a state updater run twice incrementing twice.
- A product whose `variants` field is null or missing is not modelled: the endpoint schema always gives a list.
- The `isLoading` state, which only changes what is rendered, is not modelled.
- Checkout network calls are inputs, not behaviour. `createAddress`, `collectCard`, `createCard`, `window.open`, `alert` and `refetchCards` become results given to the handlers. The card-collection window (`handleCardCollection`) changes no form state and is not a method. Nothing is modelled about state changing while a request is awaited.
- Address and card records are reduced to their ids. Their other fields are only displayed.
- `CheckoutForm.CheckoutForm.constructor`: the readiness invariant is proved only when every saved address and card id is non-empty. The schema allows an empty id string, and the form then starts with the empty id selected, which the model keeps but does not prove anything about.
- The other files of the repository are not part of this model: `CoffeeMug.tsx`, `MugParticles.tsx`, `Scope.tsx`, `WebcamBackground.tsx`, `WelcomeMenu.tsx`, `GameScene.tsx`, `GameBanner.tsx`, `page.tsx`, `app/lib/gameState.tsx` and `endpoints.ts`. They are rendering, media, wiring, a mock context, and schema declarations. From `endpoints.ts` the model uses only the non-negative variant price, as a precondition.
