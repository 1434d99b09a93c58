# Conso Maestro fridge screen — a Dafny model

This project models the logic of the fridge screen of the Conso Maestro
household-inventory app (`screens/FridgeScreen.js`), with the React, HTTP and
date-library plumbing stripped away:

- **Expiry ("DLC") classification** (module `Dlc`): the colour of a product's
  expiry container (red up to 2 days left, orange up to 4, green beyond) and
  the modal a press on it opens (short up to 4 days, long beyond). The whole
  number of days left is an input.
- **Storage-place cycle** (module `StoragePlace`): a click on a product's image
  moves it `"Frigo"` → `"Congelo"` → `"Placard"` → `"Frigo"`; any other place
  (or none) gives no next place (`None`, JavaScript's `undefined`).
- **Product list** (module `ProductList`): products keyed by their backend
  identifier `_id`, the image-click update (`Relocate`, a map that sets the
  storage place of the matching products) and the deletion update
  (`WithoutId`, a filter).
- **Screen state** (module `Fridge`, class `FridgeScreen`): the list
  `productsInfo` (`None` until the first successful fetch), the `refresh` flag
  and the two modal flags, changed by the screen's handlers. Each handler
  takes the outcome of its backend request as a parameter (`FetchReply`,
  `MutationReply`) and runs as one atomic step.

The storage-place update of an image click is applied whatever the backend
answered: `changementStoragePlace` catches and logs every failure, and the
local map runs after it unconditionally. A design that applies the change only
on a confirmed update would differ; the model follows the code. Likewise, a
product whose place is outside the cycle gets its `storagePlace` set to
undefined (`None`) by the click, since the map writes the undefined next place.

## Model

| member | source | states |
|---|---|---|
| Dlc.DlcColorOf | screens/FridgeScreen.js:56-69 | red exactly when at most 2 days are left (2 and every negative count included), orange exactly when 3 or 4, green exactly when more than 4 |
| Dlc.DlcModalOf | screens/FridgeScreen.js:118-128 | the short modal exactly when at most 4 days are left, the long one exactly otherwise |
| Dlc.ShortModalIffNotGreen | screens/FridgeScreen.js:118-128 | both rules agree: the short modal goes with the red and orange colours, the long one with green |
| Dlc.UrgencyAntitone | screens/FridgeScreen.js:62-68 | fewer days left never gives a less urgent colour |
| Dlc.DlcBoundaries | screens/FridgeScreen.js:62-68 | -1 and 2 are red, 3 and 4 orange, 5 green; 4 opens the short modal and 5 the long one |
| StoragePlace.NextPlace | screens/FridgeScreen.js:96-103 | Frigo goes to Congelo, Congelo to Placard and Placard to Frigo; a next place exists exactly for these three |
| StoragePlace.ThreeStepsReturn | screens/FridgeScreen.js:96-103 | three steps return a known place to itself, two do not |
| StoragePlace.AdvancePeriodic | screens/FridgeScreen.js:96-103 | after any number of clicks a known place stays known, and the place depends only on the number of clicks modulo 3 |
| StoragePlace.AdvanceReturnsIff | screens/FridgeScreen.js:96-103 | a known place is back to itself exactly after a multiple of three clicks |
| StoragePlace.UnknownPlaceLost | screens/FridgeScreen.js:96-103 | a place outside the cycle becomes undefined at the first click and stays so |
| ProductList.Relocate | screens/FridgeScreen.js:108-114 | the image-click map keeps the list length |
| ProductList.RelocateAt | screens/FridgeScreen.js:108-114 | at each position, a product with the clicked `_id` gets the new storage place and keeps every other field; every other product is unchanged |
| ProductList.RelocateSamePlace | screens/FridgeScreen.js:108-114 | relocating to the place the matching products already have leaves the list equal |
| ProductList.RelocateLastWins | screens/FridgeScreen.js:108-114 | two relocations of the same `_id` amount to the last one |
| ProductList.WithoutId | screens/FridgeScreen.js:143-145 | the filtered list is no longer than the old one and holds exactly the old products whose `_id` differs from the deleted one |
| ProductList.WithoutIdIsSubsequence | screens/FridgeScreen.js:143-145 | the filtered list is a subsequence of the old list (order kept) |
| ProductList.WithoutIdConcat | screens/FridgeScreen.js:143-145 | filtering distributes over concatenation, so survivors keep their relative order |
| ProductList.WithoutIdShrinksIff | screens/FridgeScreen.js:143-145 | the list gets shorter exactly when some product had the deleted `_id` |
| ProductList.WithoutIdIdempotent | screens/FridgeScreen.js:143-145 | deleting the same `_id` twice gives the list of deleting it once |
| ProductList.RelocateAfterWithoutId | screens/FridgeScreen.js:108-145 | relocating a product after it was deleted leaves the filtered list unchanged |
| ProductList.WithoutIdAfterRelocate | screens/FridgeScreen.js:108-145 | deleting a product after relocating it gives the same list as deleting it alone; a relocation of another product commutes with the deletion |
| Fridge.ClickRow | screens/FridgeScreen.js:95-114 | clicking a rendered row keeps the list length and moves that row to the next place of its own storage place |
| Fridge.ThreeClicksRestoreList | screens/FridgeScreen.js:95-114 | with distinct `_id`s and a known place, three clicks on one row give back the original list |
| Fridge.FridgeScreen.constructor | screens/FridgeScreen.js:15-18 | the screen starts with no product list, `refresh` false and both modals hidden |
| Fridge.FridgeScreen.FetchProducts | screens/FridgeScreen.js:22-40 | a reply with `result` true replaces the whole list by its `data`, with no merge; a negative reply or a failed request leaves the list as it was |
| Fridge.FridgeScreen.HandleImageClick | screens/FridgeScreen.js:72-115 | whatever the update request returned, the new list is `Relocate` of the old one to the clicked product's next place, so the three-click closure applies to it; the list keeps its length, products with the clicked `_id` get the next place of the clicked product and every other product is unchanged |
| Fridge.FridgeScreen.HandleDlcPress | screens/FridgeScreen.js:118-128 | a press sets exactly one modal flag, the short one exactly when the colour is red or orange, and leaves the other flag as it was |
| Fridge.FridgeScreen.CloseShortDlcModal | screens/FridgeScreen.js:238-244 | closing hides the short modal |
| Fridge.FridgeScreen.CloseLongDlcModal | screens/FridgeScreen.js:256-262 | closing hides the long modal |
| Fridge.FridgeScreen.HandleProductDelete | screens/FridgeScreen.js:131-154 | on a confirmed deletion the list loses every product with the deleted `_id`, keeps the others in order as a subsequence, and `refresh` flips; otherwise list and `refresh` are unchanged |

## Left out

- The backend requests (`GET /frigo/{userId}`, `PUT` and `DELETE /products/{id}`), `response.json()` and the console logging: network I/O; their outcomes are the `FetchReply` and `MutationReply` parameters. The body of the update request is not modelled.
- The day difference computed with `moment` and the `toLocaleDateString` formatting: they depend on a library, the wall clock and the locale; the number of days left is an integer input and the expiry date an opaque string.
- The effect that fetches the list again when the screen gains focus or `refresh` flips: the model exposes `FetchProducts` for its caller to run after each such change. Whether a confirmed deletion stays gone after the next fetch depends on the backend, which is not part of this model.
- Interleaving of the asynchronous handlers (a deletion racing a storage-place change): each handler is one atomic step; `WithoutIdAfterRelocate` and `RelocateAfterWithoutId` state what the two orders of completion give.
- Product fields other than `_id`, `name`, `dlc` and `storagePlace`, and a successful fetch reply without a `data` array.
- Fridge.FridgeScreen.HandleImageClick: requires a loaded list, since rows, and so image buttons, are only rendered once the list is loaded; the source would fail on an undefined list.
- Fridge.FridgeScreen.HandleProductDelete: requires a loaded list when the deletion is confirmed, since the delete button is only rendered once the list is loaded; the source's filter would fail on an undefined list.
- Dlc.DlcColorOf: an unparseable expiry date makes the day difference NaN, every comparison with it is false, and the source then draws the green style; the days left are an integer here, so this path is not modelled.
- Dlc.DlcModalOf: for the same NaN day difference the source opens the long modal; this path is not modelled either.
- JSX rendering, image `require`s, navigation (`handlePlacardPress`, `handleCongeloPress`) and the style sheet: UI plumbing; the three colour styles are the `DlcColor` values.
- `screens/RappelconsoScreen.js` (the product-recall screen): it only stores the fetched recalls verbatim and toggles view flags.
