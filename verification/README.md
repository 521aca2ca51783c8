# Cake designer state engine and shop bookkeeping, in Dafny

This project models the core of a cake-shop web application.

- **The cake-design state engine** (`cake_context.dfy`, `history.dfy`):
  - a design state: the cake model, the decorative elements and the plain fields (colour, flavour, message and the rest);
  - an undo/redo history with a cursor;
  - `addToHistory`, which snapshots the design on every committing action;
  - `rebuildFromHistory`, which rehydrates a history entry;
  - `cakeReducer` with all its actions.
- **The base cake layer `BaseModel`** (`cake_renderer.dfy`): a mutable object with defaults, one setter per field, colour normalisation and a mesh-name-to-texture map.
- **Decorative elements** (`element_model.dfy`): the element source file is not part of this model, so `ElementModel` is an abstract object whose setters each assign their own field.
- **The shop's cart bookkeeping** (`shop_cart.dfy`):
  - normalising the server's cart into the key-to-quantity map and the detailed list;
  - the local updates after add, delete and quantity change;
  - the cart count.
- **The product list** (`shop_products.dfy`): mapping and filtering.
- **The receipt's pricing** (`receipt.dfy`): subtotal, tax, total and the displayed line prices.

Loosely typed JavaScript values are modelled as a JSON datatype (`js.dfy`):
- an undefined value is `None`;
- truthiness and the `x || default` idiom are written out;
- a thrown `TypeError` is a `Failure` outcome.

Objects that the source creates and mutates through setters are Dafny classes:
- `BaseModel`;
- `ElementModel`, whose references also give `REMOVE_ELEMENT` its identity comparison.

Fidelity choices:
- The reducer is a method because several actions allocate objects.
- The identifier that `ADD_ELEMENT` draws from the clock and a random number is a parameter.
- The server's answers to the shop's requests are parameters too.

`RenderCake` calls `setTextures`, a method that `BaseModel` does not have; `BaseModel` defines only `setTexture`. The model makes this an explicit failure outcome rather than a precondition. As a result:
- `SET_BASE_STYLE` always fails;
- `SET_CAKE_TYPE` fails whenever the cake props have a truthy path.

The other source quirks are reproduced as written:
- `SET_MESSAGE_SCALE` pushes the unserialized previous state, not a snapshot (the `Raw` history entry).
- A rebuild restores the cake model only as plain data.
- The rebuild also passes records that are not element records through unchanged.

## Model

| member | source | states |
|---|---|---|
| CakeRenderer.BaseModel.constructor | src/context/CakeRendererClass.jsx:38-45 | A new layer has the given path, position [0,0,0], colour {primary '#ffffff', flavorName null}, name 'Layer1', an empty mesh-name list, an empty texture map, and no price or text |
| CakeRenderer.BaseModel.SetName | src/context/CakeRendererClass.jsx:47-49 | Only the name changes, to the argument |
| CakeRenderer.BaseModel.SetPosition | src/context/CakeRendererClass.jsx:51-53 | Only the position changes, to the argument |
| CakeRenderer.BaseModel.SetColor | src/context/CakeRendererClass.jsx:55-78 | Only the colour changes, to the normalised form of the argument |
| CakeRenderer.BaseModel.SetTargetedMeshName | src/context/CakeRendererClass.jsx:80-82 | Only the targeted mesh name changes |
| CakeRenderer.BaseModel.SetPath | src/context/CakeRendererClass.jsx:84-86 | Only the path changes |
| CakeRenderer.BaseModel.SetPrice | src/context/CakeRendererClass.jsx:88-90 | Only the price changes |
| CakeRenderer.BaseModel.SetText | src/context/CakeRendererClass.jsx:92-94 | Only the text changes |
| CakeRenderer.BaseModel.SetTexture | src/context/CakeRendererClass.jsx:96-99 | Only the texture map changes, at that mesh name alone; reading that name back gives the texture |
| CakeRenderer.BaseModel.GetProperties | src/context/CakeRendererClass.jsx:118-130 | Reports name, path, colour, position, targeted mesh name, texture map and price equal to the current fields |
| CakeRenderer.BaseModel.PlainRecord | src/context/CakeContext.jsx:68 | The JSON round trip of a layer keeps its data fields, and the texture Map becomes an empty object |
| CakeRenderer.FlavorObjectColor | src/context/CakeRendererClass.jsx:56-63 | For an object with `colors`, primary is `colors.primary` and flavorName is the object's `name` |
| CakeRenderer.DirectObjectColor | src/context/CakeRendererClass.jsx:64-69 | For any other object, primary is its `primary` and flavorName is `flavorName` or else null |
| CakeRenderer.NormalizeColor | src/context/CakeRendererClass.jsx:55-78 | A falsy input gives {'#ffffff', null}; a truthy non-object is kept as primary with a null flavour; the flavour name is undefined only for a flavour object without a `name` |
| CakeRenderer.StringOrFalsyColor | src/context/CakeRendererClass.jsx:71-77 | Anything but a truthy object goes through `color`, or else '#ffffff': a truthy value (non-empty string, non-zero number, true) is kept as the primary colour, a falsy one (absent, null, false, 0, '') gives '#ffffff'; flavorName is null |
| CakeRenderer.NormalizeColorCanonical | src/context/CakeRendererClass.jsx:55-78 | Feeding a stored colour back through setColor keeps its primary colour and a truthy flavour name, and turns a falsy one into null |
| CakeRenderer.SetThenGetTexture | src/context/CakeRendererClass.jsx:96-103 | After setting texture t for mesh m, getTexture(m) is t and other mesh names read as before |
| CakeRenderer.LookupTexture | src/context/CakeRendererClass.jsx:101-103 | `map.get(meshName)`: the stored texture, or undefined for a mesh name without one |
| CakeRenderer.BaseModel.GetTexture | src/context/CakeRendererClass.jsx:101-103 | The layer's texture for the mesh name, or undefined when it has none |
| Elements.ElementModel.constructor | src/context/CakeContext.jsx:80 | A new element carries the given path and no other field yet |
| Elements.ElementModel.SetName | src/context/CakeContext.jsx:82 | Only the element's name changes |
| Elements.ElementModel.SetPosition | src/context/CakeContext.jsx:83 | Only the element's position changes |
| Elements.ElementModel.SetColor | src/context/CakeContext.jsx:84 | Only the element's colour changes |
| Elements.ElementModel.SetTargetedMeshName | src/context/CakeContext.jsx:85 | Only the element's targeted mesh name changes |
| Elements.ElementModel.SetPrice | src/context/CakeContext.jsx:86 | Only the element's price changes |
| Elements.ElementModel.SetScale | src/context/CakeContext.jsx:87 | Only the element's scale changes |
| Elements.ElementModel.SetTextures | src/context/CakeContext.jsx:158-160 | Only the element's textures change |
| Elements.ElementModel.GetProperties | src/context/CakeContext.jsx:55 | The reported properties are the element's current name, position, colour, mesh name, price and scale |
| History.SliceTo | src/context/CakeContext.jsx:63 | JavaScript `slice(0, end)`: a prefix of the history; exactly the first `end` entries when `end` is within bounds; the whole history when `end` is past the length; counted from the back when `end` is negative |
| History.Commit | src/context/CakeContext.jsx:61-70 | On a valid history the result is the entries up to the cursor plus the new one, with the cursor on it, and is well formed |
| History.PushInline | src/context/CakeContext.jsx:217-218 | On a valid history the inline push of SET_MESSAGE_SCALE agrees with a commit |
| History.PushInlineOffBelow | src/context/CakeContext.jsx:217-218 | From any cursor below -1 the inline push and the commit keep the same entries but disagree on the cursor: the commit's is never negative, the inline push's stays negative. From -2 the inline push lands on -1 over a non-empty history (valid, not well formed); from below -2 its cursor is invalid |
| History.Undo | src/context/CakeContext.jsx:221-236 | The entries stay; the cursor either stays or moves back by one to an index not below 0 |
| History.Redo | src/context/CakeContext.jsx:237-254 | The entries stay; the cursor either stays or moves forward by one to an index inside the history |
| History.CanUndo | src/components/Decorations/DecorationCanvas.jsx:13-16 | On a valid history the flag is raised only when there is an entry before the cursor |
| History.CanRedo | src/components/Decorations/DecorationCanvas.jsx:13-16 | On a valid history the flag is raised only when there is an entry after the cursor |
| History.UndoSpec | src/context/CakeContext.jsx:221-236 | UNDO is a no-op exactly on an empty history or at a cursor ≤ 0; otherwise the cursor moves back by one and the entries stay; validity is preserved |
| History.RedoSpec | src/context/CakeContext.jsx:237-254 | REDO is a no-op exactly at or past the last index; otherwise the cursor moves forward by one and the entries stay; validity is preserved |
| History.FlagsMatchGuards | src/components/Decorations/DecorationCanvas.jsx:13-16 | On a valid history, the canUndo/canRedo flags hold exactly when UNDO/REDO would change the state |
| History.FlagsDisagreeOffInvariant | src/components/Decorations/DecorationCanvas.jsx:13-16 | Off the invariant, canRedo can be set while REDO does nothing |
| History.CommitAfterUndo | src/context/CakeContext.jsx:228-234 | A commit after an undo cuts the history back to the new cursor before appending |
| History.BranchDiscardsRedo | src/context/CakeContext.jsx:221-236 | Commit A, commit B, undo, commit C gives [A, C] with the cursor at 1 |
| History.CommitAllAppends | src/context/CakeContext.jsx:61-70 | From the newest entry, N commits append exactly those N entries and leave the cursor on the last |
| History.UndoTimesMovesCursor | src/context/CakeContext.jsx:221-236 | k undos with k at most the cursor move the cursor back by exactly k |
| History.RedoTimesMovesCursor | src/context/CakeContext.jsx:237-254 | k redos that stay within the history move the cursor forward by exactly k |
| History.UndoRedoRoundTrip | src/context/CakeContext.jsx:221-254 | k undos followed by k redos restore the history and cursor |
| CakeContext.InitialState | src/context/CakeContext.jsx:8-17 | No cake model; no elements; fields cakeColor '#FFFFFF', flavour '' and message '' only; empty history; cursor -1 |
| CakeContext.SetAttr | src/context/CakeContext.jsx:140-141 | `{...state, f: payload}`: f gets the payload (or is dropped when undefined), and every other field is unchanged |
| CakeContext.Tag | src/context/CakeContext.jsx:53-58 | The record of an element: type 'ElementModel', its current properties, its unique id and its path |
| CakeContext.EncodeCake | src/context/CakeContext.jsx:68 | After the JSON round trip null stays null, plain cake data is itself, and a live layer keeps path, colour, name and price with its texture Map turned into {} |
| CakeContext.EncodeElements | src/context/CakeContext.jsx:53-58 | Encoding succeeds iff every element is an element object, keeping length and order and giving each its tagged record; otherwise getProperties is not a function |
| CakeContext.Encode | src/context/CakeContext.jsx:51-62 | The snapshot omits history and cursor, keeps the cake data and the fields, and holds each element in order as its tagged record |
| CakeContext.AddToHistory | src/context/CakeContext.jsx:49-71 | The design is untouched; the history is its first cursor+1 entries plus one snapshot of the design; the cursor is the new last index; the result is well formed |
| CakeContext.Lookup | src/context/CakeContext.jsx:229 | An entry is defined exactly for an index inside the history, and then it is the entry at that index |
| CakeContext.ElementFromRecord | src/context/CakeContext.jsx:79-88 | A new element with the record's path, identifier and properties |
| CakeContext.RebuildFromHistory | src/context/CakeContext.jsx:74-97 | A missing entry gives the initial design. Otherwise the entry's cake and fields are kept, each tagged record becomes a new, distinct element with its path, id and properties, in order, and untagged records pass through unchanged |
| CakeContext.NewElement | src/context/CakeContext.jsx:145-164 | Null or undefined props throw on reading `path`; otherwise a new element with the given id and the defaulted fields |
| CakeContext.NewElementFields | src/context/CakeContext.jsx:145-164 | The new element has the props' path and the fresh id; its name, position, colour and mesh name are always truthy; price is the props' truthy price, else 0; scale and textures are set exactly when the props' are truthy |
| CakeContext.RemoveAll | src/context/CakeContext.jsx:175 | The result holds exactly the entries other than the removed object |
| CakeContext.RenderCake | src/context/CakeContext.jsx:19-44 | Always throws, because `setTextures` is not a method of BaseModel |
| CakeContext.MessageScaleStep | src/context/CakeContext.jsx:213-220 | Sets messageScale, advances the cursor by one, and on a valid history appends the whole previous state after the entries up to the cursor |
| CakeContext.PlacementStep | src/context/CakeContext.jsx:262-268 | cakePlacement and cakeTopPosition both get the payload; every other field, the elements, the cake, the history and the cursor are unchanged |
| CakeContext.AddElementStep | src/context/CakeContext.jsx:144-171 | Exactly one new element is appended, with the defaults, and earlier elements are kept; then the result is committed; null or undefined props throw |
| CakeContext.UndoStep | src/context/CakeContext.jsx:221-236 | The cursor follows the UNDO guard, and the design is rebuilt from the entry at the new cursor |
| CakeContext.RedoStep | src/context/CakeContext.jsx:237-254 | The cursor follows the REDO guard, and the design is rebuilt from the entry at the new cursor |
| CakeContext.CakeReducer | src/context/CakeContext.jsx:100-274 | Every action's outcome. The field setters and REMOVE_ELEMENT commit; SET_BASE_STYLE and a rendering SET_CAKE_TYPE throw; UNDO/REDO follow the guards; RESET gives the initial state; UPDATE_CAKE_PLACEMENT leaves the history alone; unknown actions change nothing; a well-formed history stays well formed |
| CakeContext.RemoveAllAppend | src/context/CakeContext.jsx:172-176 | Removal distributes over concatenation, so the relative order of the remaining elements is kept |
| CakeContext.RemoveAllCounts | src/context/CakeContext.jsx:175 | Every occurrence of the removed object goes, and every other entry keeps its multiplicity |
| CakeContext.RemoveAllAbsent | src/context/CakeContext.jsx:172-176 | Removing an object that is not present keeps the elements unchanged |
| CakeContext.NewElementDefaults | src/context/CakeContext.jsx:152-164 | With only a path: name 'Element', position [0,0,0], colour '#FFFFFF', mesh 'default', price 0, no scale or textures. The name otherwise falls back from name to id |
| CakeContext.MessageScaleRecordsPreviousState | src/context/CakeContext.jsx:213-220 | The entry under the new cursor is the old state with its old scale, while the live design has the new scale |
| CakeContext.SnapshotRoundTrip | src/context/CakeContext.jsx:51-97 | Snapshot then rebuild gives the same fields and the same elements in order with equal id, path and properties. A live cake comes back as its plain JSON data |
| CakeContext.BranchScenario | src/context/CakeContext.jsx:179-236 | SET_MESSAGE A, SET_MESSAGE B, UNDO, SET_MESSAGE C through the reducer: two entries holding messages A and C, cursor 1 |
| Receipt.Amount | src/components/Decorations/Receipt.jsx:57 | price or else the fallback: a falsy price gives the fallback, and a truthy number is its own non-zero value |
| Receipt.Subtotal | src/components/Decorations/Receipt.jsx:51-67 | The subtotal is undefined as an amount exactly when the base price or some element price is not one; otherwise it is base plus the element prices plus 5 when there is a message |
| Receipt.CalculateSubtotal | src/components/Decorations/Receipt.jsx:51-67 | The loop's result equals base (default 25), plus each element's price (default 3.50), plus 5 when there is a message |
| Receipt.Tax | src/components/Decorations/Receipt.jsx:70-71 | For a non-negative subtotal the tax lies between 0 and the subtotal |
| Receipt.Total | src/components/Decorations/Receipt.jsx:72 | Total minus tax is the subtotal |
| Receipt.TotalIsSubtotalWithTax | src/components/Decorations/Receipt.jsx:70-72 | The total is 1.08 times the subtotal, and never below it when the subtotal is non-negative |
| Receipt.SubtotalOfBareCake | src/components/Decorations/Receipt.jsx:52-66 | With no elements and no message the subtotal is the base price (25 when absent) |
| Receipt.SubtotalAppend | src/components/Decorations/Receipt.jsx:55-59 | Appending an element raises the subtotal by exactly its price, or 3.50 when falsy |
| Receipt.SubtotalAllDefaults | src/components/Decorations/Receipt.jsx:51-67 | With every price defaulted, the subtotal is 25 + 3.50·n + 5 if there is a message |
| Receipt.ElementLines | src/components/Decorations/Receipt.jsx:198 | One displayed line per element, each at its price, or 3.50 when falsy |
| Receipt.DisplayedLines | src/components/Decorations/Receipt.jsx:159-198 | The Price column: the base line first, the 5.00 message line when there is a message, then one line per element in order at its price or 3.50 |
| Receipt.ElementLinesSum | src/components/Decorations/Receipt.jsx:183-200 | The element lines sum to the elements' contribution to the subtotal |
| Receipt.DisplayedLinesSum | src/components/Decorations/Receipt.jsx:159-198 | The displayed line prices (base, message, each element) sum to the subtotal |
| Receipt.FromDesign | src/components/Decorations/Receipt.jsx:6 | The receipt of the live design has no base price, so bills 25; its prices are each element's own `price`, in order; its message is the design's message |
| Receipt.AddedElementBilledDefault | src/components/Decorations/Receipt.jsx:57 | An element added without a price gets price 0, which is falsy, so the subtotal rises by exactly 3.50 |
| Js.OrElse | src/context/ShopContext.jsx:103 | JavaScript `a or b`: a when truthy, else b; the result is truthy exactly when one of the operands is |
| ShopProducts.First | src/context/ShopContext.jsx:103 | `v?.[0]`: the first item of a non-empty array; undefined for undefined |
| ShopProducts.Reshape | src/context/ShopContext.jsx:94-107 | Keeps id, name, price, description, category and stock. Status defaults to 'Available'. isAvailable holds iff the status is 'Available' or absent. Images fall back to [Image], then to []. The display image is the first image's url, else the legacy Image's url |
| ShopProducts.VisibleProducts | src/context/ShopContext.jsx:94-110 | The visible list is no longer than the catalogue and holds no product with status 'Deleted' |
| ShopProducts.VisibleProductsMembers | src/context/ShopContext.jsx:94-110 | The list holds exactly the reshaped products whose status is not 'Deleted' |
| ShopProducts.VisibleProductsAppend | src/context/ShopContext.jsx:110 | Filtering keeps the catalogue order |
| ShopProducts.VisibleAvailability | src/context/ShopContext.jsx:105-106 | In the visible list, isAvailable holds iff the status is 'Available' |
| ShopProducts.MissingStatusIsAvailable | src/context/ShopContext.jsx:105-106 | A product without a status is shown, as 'Available' and available |
| ShopCart.ItemKey | src/context/ShopContext.jsx:181-204 | A product's key is its productId; a cake's key is 'cake_' followed by cakeDesignId, or _id when that is falsy |
| ShopCart.Detail | src/context/ShopContext.jsx:185-221 | An entry carries the item's _id as cart-item id, its quantity and availability; a product entry its product id and price; a cake entry its design id (cakeDesignId or _id), a truthy price and truthy options |
| ShopCart.NormalizeCart | src/context/ShopContext.jsx:175-227 | The loop builds the key-to-quantity map (last write wins) and the detailed list of accepted items, in order |
| ShopCart.CartObjectKeys | src/context/ShopContext.jsx:179-204 | Every accepted item's key is present and every key comes from an accepted item. A key holds the quantity of the last item with that key |
| ShopCart.DetailedOfAppend | src/context/ShopContext.jsx:179-223 | The detailed list follows the server's order |
| ShopCart.DetailedOfOne | src/context/ShopContext.jsx:179-223 | An item yields one entry if it is a product with an id or a cake, and none otherwise |
| ShopCart.CakeDetailDefaults | src/context/ShopContext.jsx:198-221 | Cake entries default to price 25, name 'Custom Cake Design', options {size medium, flavor vanilla} and the default image, and their design id falls back to _id |
| ShopCart.CurrentQuantity | src/context/ShopContext.jsx:359 | The current quantity: 0 for a missing key, else the stored quantity |
| ShopCart.FindProduct | src/context/ShopContext.jsx:353 | The first catalogue product with the id, as `.find` returns it (no earlier product has that id), or none when no product has it |
| ShopCart.PrepareAdd | src/context/ShopContext.jsx:340-397 | A request exists iff logged in and either the product is in the catalogue or the cake has an id. Its key is the product id or 'cake_' + id, and its quantity is the current quantity (0 when absent) plus one |
| ShopCart.SetAddQuantity | src/context/ShopContext.jsx:428-432 | The entries matching id and type get the new quantity; the others are unchanged |
| ShopCart.DesignName | src/context/ShopContext.jsx:465 | The design name `cakeOptions?.name`, or else 'Custom Cake Design': a truthy string name, else the default; never empty |
| ShopCart.NewAddEntry | src/context/ShopContext.jsx:433-477 | The appended entry carries the reply's id and the new quantity; a product entry copies name, price and image from the catalogue product; a cake entry carries the design id, price, preview image, the options or {} and the name 'Custom Cake: ' + design name |
| ShopCart.ReplyItemId | src/context/ShopContext.jsx:438 | Reading `cartItem._id` throws exactly when the cart item is null or undefined; otherwise it is the string id, when there is one |
| ShopCart.AddToCart | src/context/ShopContext.jsx:340-501 | Without a request or on failure the cart is unchanged; on success the key gets the request's quantity; the detailed list either keeps its length or gains one entry at the end |
| ShopCart.AddToCartEarlyReturns | src/context/ShopContext.jsx:340-397 | Logged out, an unknown product, a cake without an id, an unknown type, or a failed request all leave the cart unchanged |
| ShopCart.AddToCartUpdates | src/context/ShopContext.jsx:410-481 | After success, the key holds old + 1 and other keys are unchanged. A matching entry gets that quantity; otherwise one entry is appended at the end, carrying the reply's `cartItem._id` as its cart-item id |
| ShopCart.AddWithoutCartItem | src/context/ShopContext.jsx:415-447 | A reply without a cart item updates the key but not the detailed list |
| ShopCart.AddNewProductCount | src/context/ShopContext.jsx:433-447 | Adding a new product raises the cart count by one |
| ShopCart.FindByCartItemId | src/context/ShopContext.jsx:513 | The first entry with the cart-item id (no earlier entry has it), or none when no entry has it |
| ShopCart.WithoutCartItem | src/context/ShopContext.jsx:546 | Keeps exactly the entries with a different cart-item id |
| ShopCart.WithoutCartItemAppend | src/context/ShopContext.jsx:546 | The filter keeps the order of the remaining entries |
| ShopCart.DeleteItemsCart | src/context/ShopContext.jsx:504-561 | Logged out: nothing happens. An unknown id or a failed request refetches the cart. Only a successful delete of a known item updates the cart |
| ShopCart.DeleteRemovesItem | src/context/ShopContext.jsx:534-546 | A successful delete removes exactly the item's key and every entry with its cart-item id |
| ShopCart.DeleteKey | src/context/ShopContext.jsx:534-539 | A product entry with an id removes its product id; a cake entry with a design id removes 'cake_' + design id; any other entry removes no key |
| ShopCart.DeleteKeyOfDetail | src/context/ShopContext.jsx:181-204 | The key a delete removes is the key normalisation wrote for the entry, except for a cake without any id, whose 'cake_undefined' key stays |
| ShopCart.FindByProductId | src/context/ShopContext.jsx:622 | The first entry with the product id (no earlier entry has it), or none when no entry has it; an undefined id finds the first entry without a product id, such as a cake |
| ShopCart.SetProductQuantity | src/context/ShopContext.jsx:654-660 | Entries with the product id get the new quantity; the others are unchanged |
| ShopCart.UpdateQuantity | src/context/ShopContext.jsx:613-665 | A quantity of 0 delegates to delete for the first matching entry. Without an entry or on failure nothing changes |
| ShopCart.UpdateQuantitySets | src/context/ShopContext.jsx:647-660 | A successful update sets the product's key and the quantity of exactly the matching entries; nothing else changes |
| ShopCart.UpdateToZeroDeletes | src/context/ShopContext.jsx:620-627 | Setting quantity 0 with a successful delete removes the product's entry by its cart-item id |
| ShopCart.GetCartCount | src/context/ShopContext.jsx:682-689 | The loop's count is the sum of the quantities in the detailed list |

## Left out

- Rendering and scene code are not modelled. This covers the model renderer, `getModel` and the JSX `model` field of `getProperties`.
- Not modelled, because they are I/O, clocks and side effects: the HTTP requests, local storage, token decoding and expiry, toasts, navigation, the user hook, the save/load components and the screenshot capture. The server's answers are parameters.
- `getCartAmount` is not part of this model. It depends on `parseFloat` of price strings.
- Currency formatting and the receipt's order identifier are not part of this model.
- The identifier `ADD_ELEMENT` draws from the clock and a random number is a caller-supplied parameter.
- The element source file is not part of this model. `ElementModel` is taken to set only its path in the constructor; its other defaults are unknown and start absent. Its `getProperties` is taken to report the six fields the rebuild reads.
- CakeContext.RebuildFromHistory: returns only the design part. The history and cursor the source spreads in from a raw entry are always overwritten by UNDO/REDO.
- REMOVE_ELEMENT: the payload is restricted to element objects, because identity comparison with other payload values (plain records, strings) is not modelled.
- CakeContext.RenderCake: the `getProperties` override it installs is not modelled, because the call before it always throws.
- Floating-point rounding is not modelled: amounts are exact decimals. Values that JSON cannot represent (NaN, functions) are not modelled either.
- Receipt.Amount: a truthy price that is not a number is a non-amount (`None`). JavaScript's string concatenation and coercion are not modelled for it.
- Server cart items: identifiers, names, images and descriptions from the server are strings or absent. The difference between `null` and `undefined` identifiers (which print differently in a key) is not modelled. Quantities are integers.
- ShopCart.NewAddEntry: a truthy cake-option name that is not a string gives an entry whose name is left undetermined (`None`), because JavaScript's string conversion of such a value is not modelled.
- ShopCart.DeleteItemsCart: the refetch it starts is an outcome, not a state change, because the server's cart is not modelled.
