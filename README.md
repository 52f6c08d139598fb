# TV a la Carta storefront: configuration store, checkout and novela selection

This project models in Dafny three pieces of the storefront's logic and proves properties about them.

- **The administrator's configuration store** (`src/context/AdminContext.tsx`), in `admin_store.dfy`.
  - The configuration holds the pricing, the novela catalog and the delivery zones, plus an "authenticated" flag.
  - `AdminStore.Reduce` is the store's pure transition function over a datatype of actions.
  - `AdminStore.AdminProvider` is a class that holds the current state. Its methods are the provider's helpers. Each one computes an action from the current state (new ids, default costs, default zone paths) and dispatches it, or dispatches nothing:
    - login, logout;
    - add, update and delete a novela;
    - add, update and delete a delivery zone;
    - import, export, reset.
- **Checkout** (`src/components/CheckoutModal.tsx`), in `checkout.dfy`.
  - The pure part:
    - the base price of a cart item;
    - the cash and transfer totals and the transfer fee;
    - delivery-cost lookup by zone path;
    - form validity;
    - which cost lines the order text carries.
  - `Checkout.CheckoutModal` is a class holding the component state that the handlers update: customer data, selected zone, generated order, and the processing flag.
- **Novela selection** (`src/components/NovelasModal.tsx`), in `novelas.dfy`.
  - `Novelas.NovelasModal` is a class holding two fields: the selected ids and the listed novelas with their payment types. Its methods are the toggle, payment-change, select-all, clear and mount handlers.
  - Totals are a pure function over the shipped catalog, using its stored costs with a fallback.
  - The WhatsApp message is built by methods whose loops mirror the source's `forEach` accumulation.

Shared pieces:

- `wrappers.dfy`: `Option` and `Result`. It also has `Truthy` and `OrElse`, which model JavaScript's `x || y` on a number that may be missing or 0.
- `money.dfy`: `Money.Surcharged(base, fee)`, the integer round-half-up of `base * (1 + fee/100)`, with its bounds.
- `keyed.dfy`: the list operations the three files share, each keyed by an id or path:
  - replace where the key matches (`map`);
  - keep where a predicate holds (`filter`);
  - first match (`find`);
  - largest key plus one;
  - sums (`reduce`);
  - key uniqueness.

Rounding is modelled exactly: `Math.round(x)` of the exact rational `base*(100+fee)/100` is `(base*(100+fee)+50) div 100`.

## Notes on the source

Where the natural description of the code and the code itself disagree, the model follows the code:

- **Toggling a novela twice.** This restores the selection *list* only when the novela was not selected. When it was selected, the novela moves to the end: `Novelas.ToggleTwiceMovesPresentToEnd`, and concretely `[1, 2]` becomes `[2, 1]` in `Novelas.ToggleTwiceReorders`. The *set* of selected ids is restored in both cases.
- **Transfer price equal to the cash price.** A transfer price can equal the cash price with a positive fee, because of rounding: `Money.SmallSurchargeRoundsAway` (base 1, fee 10). A zero fee implies equality (`Money.SurchargeZeroFee`), but the converse does not hold.
- **The shipped novela catalog.** Its transfer costs are a 10% snapshot, while the configured percentage is 15 (`Novelas.ShippedCatalogIgnoresConfiguredFee`). Stored costs take precedence over the configured fee, so the totals use the 10% prices.
- **Two fallbacks for a missing transfer cost.**
  - The message's per-novela entries fall back to `round(cash cost * (1 + fee))`.
  - The totals fall back to `round(chapters * 5 * (1 + fee))`.

  The two differ when a stored cash cost is set but the stored transfer cost is not (`Novelas.TransferFallbacksDisagree`). They agree for the shipped catalog, so there the message's entries add up to the totals (`Novelas.ShippedEntriesMatchTransferTotal`).
- **Updating with a changed id.** `UPDATE_NOVELA` and `UPDATE_DELIVERY_ZONE` replace the elements whose id equals the *payload's* id. A patch that changes the id therefore retargets: `updateNovela(id, {id: other})` replaces the element carrying `other`. `AdminStore.AdminProvider.UpdateNovela` states exactly this.
- **The reducer versus the helper.** The reducer itself deletes zone 1 (`AdminStore.ReducerDeletesZoneOne`). Only the `deleteDeliveryZone` helper refuses to.
- **The checkout total.** `handleSubmit` checks only the placeholder zone, not the customer fields. The order's `subtotal` is the caller's `total` prop, not the computed cash plus transfer totals.

## Model

| member | source | states |
|---|---|---|
| Money.Surcharged | src/components/CheckoutModal.tsx:262 | the surcharged price is the nearest integer to `base*(100+fee)/100`, halves rounded up |
| Money.SurchargeNotBelowBase | src/components/CheckoutModal.tsx:262 | with a non-negative base and fee the surcharged price is never below the base |
| Money.SurchargeZeroFee | src/components/CheckoutModal.tsx:262 | at a 0% fee the surcharged price is the base |
| Money.SurchargeStrictlyAboveBase | src/components/CheckoutModal.tsx:262 | a fee large enough to add at least half a unit makes the price strictly greater than the base |
| Money.SmallSurchargeRoundsAway | src/components/CheckoutModal.tsx:262 | a positive fee can round away entirely (base 1 at 10% stays 1) |
| Money.SurchargeMonotone | src/components/CheckoutModal.tsx:262 | for a fixed fee of at least -100% a larger base never gets a smaller surcharged price |
| Keyed.MapWhere | src/context/AdminContext.tsx:42-44 | same length; elements with the key are transformed and all others are kept in place |
| Keyed.Filter | src/components/NovelasModal.tsx:196-199 | every kept element is in the input and passes the predicate, every passing input element is kept, and the result is never longer |
| Keyed.FilterCounts | src/components/NovelasModal.tsx:196-199 | every passing element is kept as many times as it occurs in the input |
| Keyed.FilterKeepsProperty | src/components/NovelasModal.tsx:196 | a property every element has is kept by every element a filter returns |
| Keyed.FilterAppend | src/components/NovelasModal.tsx:196-199 | filtering distributes over concatenation, so the kept elements stay in their original order |
| Keyed.RemoveWhere | src/context/AdminContext.tsx:52 | every kept element is in the input with a different key, every input element with a different key is kept, and the result is never longer |
| Keyed.RemoveWhereCounts | src/context/AdminContext.tsx:52 | every element whose key differs is kept as many times as it occurs in the input |
| Keyed.FindFirst | src/context/AdminContext.tsx:170 | the result is the first element with the key, or none when no element has it |
| Keyed.MaxKey | src/context/AdminContext.tsx:158 | the result is at least 0 and every key, and is 0 or one of the keys |
| Keyed.NextKey | src/context/AdminContext.tsx:158 | the new id is greater than every existing id and at least 1 |
| AdminStore.Reduce | src/context/AdminContext.tsx:19-109 | per action, what changes (append, replace by id, remove by id keeping every other element as often as it occurred, flip `active`, load, log in/out) and what every action leaves untouched |
| AdminStore.ToggleTwiceRestores | src/context/AdminContext.tsx:81-90 | toggling the same zone twice gives back the original state |
| AdminStore.DeleteAbsentNovelaIsNoop | src/context/AdminContext.tsx:47-54 | deleting a novela id that nothing carries changes nothing |
| AdminStore.DeleteAbsentZoneIsNoop | src/context/AdminContext.tsx:73-80 | deleting a zone id that nothing carries changes nothing |
| AdminStore.DeleteZoneKeepsOrder | src/context/AdminContext.tsx:73-80 | deleting distributes over any split of the zone list, so survivors keep their order |
| AdminStore.DeleteNovelaKeepsOrder | src/context/AdminContext.tsx:47-54 | deleting a novela distributes over any split of the novela list, so survivors keep their order |
| AdminStore.ReducerDeletesZoneOne | src/context/AdminContext.tsx:73-80 | the reducer by itself does remove zone 1 when it is present |
| AdminStore.ReducePreservesUniqueIds | src/context/AdminContext.tsx:19-109 | an action that does not introduce a clashing id keeps novela and zone ids unique |
| AdminStore.NewNovelaCosts | src/context/AdminContext.tsx:157-167 | supplied truthy costs are kept; a missing or 0 cash cost becomes `5*capitulos`, a missing or 0 transfer cost the surcharge of `5*capitulos` |
| AdminStore.NewNovelaTransferNotCheaper | src/context/AdminContext.tsx:157-167 | derived transfer cost is never below derived cash cost |
| AdminStore.UpdatedNovelaCosts | src/context/AdminContext.tsx:169-182 | costs are recomputed only for a truthy, different chapter count, a supplied cost still wins, and otherwise stored costs are kept |
| AdminStore.UpdatedNovelaExtremes | src/context/AdminContext.tsx:169-182 | an empty patch leaves a novela unchanged at any fee; a patch carrying every field of another novela with non-zero costs turns it into that novela |
| AdminStore.RenameKeepsCosts | src/context/AdminContext.tsx:169-182 | a patch that only sets the title changes the title and nothing else, costs included |
| AdminStore.DefaultPathsDistinct | src/context/AdminContext.tsx:195 | two different zone names never get the same default path |
| AdminStore.NewZonePath | src/context/AdminContext.tsx:189-198 | a new zone always has a non-empty path, and a defaulted path ends in the zone's own name after the city prefix |
| AdminStore.MergeZoneLaws | src/context/AdminContext.tsx:200-206 | merging an empty patch is the identity, a patch with every field replaces the zone, and merging the same patch twice equals merging it once |
| AdminStore.ValidateImport | src/context/AdminContext.tsx:229-270 | an import succeeds iff all sections are present, both prices truthy, the fee defined and both lists arrays; the loaded config is exactly those fields; each of the four errors is returned iff its check is the first one to fail |
| AdminStore.ExportImportRoundTrip | src/context/AdminContext.tsx:216-270 | re-importing an export restores the config iff both prices are non-zero; otherwise it fails on the pricing check |
| AdminStore.AdminProvider.constructor | src/context/AdminContext.tsx:114-117 | the store starts with the default config, logged out |
| AdminStore.AdminProvider.Dispatch | src/context/AdminContext.tsx:114 | dispatching replaces the state with the reducer's result |
| AdminStore.AdminProvider.Login | src/context/AdminContext.tsx:143-149 | succeeds and logs in iff both username and password are `admin`; a failure changes nothing |
| AdminStore.AdminProvider.Logout | src/context/AdminContext.tsx:152-154 | only the authenticated flag is cleared |
| AdminStore.AdminProvider.AddNovela | src/context/AdminContext.tsx:157-167 | appends the novela with the next id and derived costs; unique ids stay unique |
| AdminStore.AdminProvider.UpdateNovela | src/context/AdminContext.tsx:169-182 | an absent id changes nothing; otherwise the merged novela (costs recomputed as above) replaces those carrying its id; unique ids stay unique |
| AdminStore.AdminProvider.DeleteNovela | src/context/AdminContext.tsx:184-186 | dispatches the delete for that id; unique ids stay unique |
| AdminStore.AdminProvider.AddDeliveryZone | src/context/AdminContext.tsx:189-198 | appends the zone with the next id and the default path when none is given; unique ids stay unique |
| AdminStore.AdminProvider.UpdateDeliveryZone | src/context/AdminContext.tsx:200-206 | an absent id changes nothing; otherwise the merged zone replaces those carrying its id |
| AdminStore.AdminProvider.DeleteDeliveryZone | src/context/AdminContext.tsx:208-213 | zone 1 is never deleted; any other id dispatches the delete |
| AdminStore.AdminProvider.ExportConfig | src/context/AdminContext.tsx:216-226 | the exported document carries both lists as arrays, and importing it gives back the current config iff both prices are non-zero |
| AdminStore.AdminProvider.ImportConfig | src/context/AdminContext.tsx:229-270 | returns true iff validation succeeds; success loads the validated config and keeps login; failure changes nothing |
| AdminStore.AdminProvider.ResetToDefaults | src/context/AdminContext.tsx:273-276 | the config returns to the defaults and login is kept |
| Checkout.SeasonCount | src/components/CheckoutModal.tsx:256 | at least 1, and the number of selected seasons when there are any |
| Checkout.BasePriceRule | src/components/CheckoutModal.tsx:256 | for any prices, a movie costs `moviePrice`; a series costs seasons times `seriesPrice`, one season when none are selected |
| Checkout.SeriesAtLeastOneSeason | src/components/CheckoutModal.tsx:256 | with a non-negative season price a series never costs less than one season |
| Checkout.SumBaseAppend | src/components/CheckoutModal.tsx:255-258 | the cash total of a concatenation is the sum of the cash totals |
| Checkout.SumTransferAppend | src/components/CheckoutModal.tsx:260-263 | the transfer total of a concatenation is the sum of the transfer totals |
| Checkout.TotalsAppend | src/components/CheckoutModal.tsx:251-275 | cash total, transfer total and transfer fee are all additive over concatenation |
| Checkout.TotalsMatchItemCharges | src/components/CheckoutModal.tsx:251-266 | cash plus transfer total equals the sum of each item's own charge |
| Checkout.OtherPaymentCountsNowhere | src/components/CheckoutModal.tsx:252-253 | an item paid neither in cash nor by transfer changes no total and no fee |
| Checkout.SumTransferAtLeastBase | src/components/CheckoutModal.tsx:260-263 | with non-negative prices and fee the transfer total is at least the base total |
| Checkout.TransferFeeNonNegative | src/components/CheckoutModal.tsx:272-275 | with non-negative prices and fee the transfer fee is non-negative |
| Checkout.SumTransferAtZeroFee | src/components/CheckoutModal.tsx:260-263 | at a 0% fee transfer items cost their base price |
| Checkout.TransferFeeZeroAtZeroFee | src/components/CheckoutModal.tsx:272-275 | at a 0% fee the transfer fee is 0 |
| Checkout.EmptyCartTotals | src/components/CheckoutModal.tsx:251-275 | an empty cart has zero cash total, transfer total and fee |
| Checkout.PriceExamples | src/components/CheckoutModal.tsx:251-266 | at prices 80/300 and a 10% fee, a movie by transfer costs 88 and a three-season series in cash costs 900 |
| Checkout.DeliveryCost | src/components/CheckoutModal.tsx:227-228 | the cost of the first zone whose path matches, 0 when none does |
| Checkout.FinalTotalOfZone | src/components/CheckoutModal.tsx:226-229 | with unique paths, choosing a zone adds exactly its cost to the caller's total, and an unknown path adds nothing |
| Checkout.FinalTotalNotBelowTotal | src/components/CheckoutModal.tsx:226-229 | with non-negative zone costs the final total is never below the caller's total |
| Checkout.DeliveryCostOfZone | src/components/CheckoutModal.tsx:227-228 | with unique paths, selecting a zone's path yields that zone's cost |
| Checkout.ShippedPlaceholder | src/components/CheckoutModal.tsx:16-23 | the shipped list has 23 zones, the first is the placeholder, and selecting it costs 0 |
| Checkout.ShippedPlaceholderFinalTotal | src/components/CheckoutModal.tsx:226-229 | with the shipped zones the placeholder leaves the caller's total unchanged |
| Checkout.AddedZoneSelectable | src/components/CheckoutModal.tsx:226-228 | a zone the administrator adds without a path is found by its default path in the active-zone list the checkout reads exactly when it is active, and then its cost is charged; an inactive one adds nothing |
| Checkout.ShippedZoneIds | src/components/CheckoutModal.tsx:16-178 | the shipped zone ids are 1 to 23 in order |
| Checkout.TrimStartSpec | src/components/CheckoutModal.tsx:232 | the result is a suffix with only whitespace removed before it and no leading whitespace |
| Checkout.TrimEndSpec | src/components/CheckoutModal.tsx:232 | the result is a prefix with only whitespace removed after it and no trailing whitespace |
| Checkout.TrimEmptyIffBlank | src/components/CheckoutModal.tsx:232-234 | a trimmed field is empty iff it has no visible character |
| Checkout.FormValidIff | src/components/CheckoutModal.tsx:232-235 | the form is valid iff name, phone and address each contain a visible character and the zone is not the placeholder |
| Checkout.LinePricesMatchTotals | src/components/CheckoutModal.tsx:278-290 | when every item is paid in cash or by transfer, the prices on the product lines add up to the cash total plus the transfer total |
| Checkout.ZoneNameOfZone | src/components/CheckoutModal.tsx:298 | with unique paths a chosen zone is named by its own name, and an unknown path by the fallback label |
| Checkout.SummaryFramed | src/components/CheckoutModal.tsx:292-326 | lines without amounts around a cost block keep the block's cost-line guarantees |
| Checkout.CostSection | src/components/CheckoutModal.tsx:304-317 | cash line iff cash total > 0, transfer line iff transfer total > 0, surcharge line iff fee > 0; subtotal, delivery and final total always, each with its amount |
| Checkout.GenerateOrderText | src/components/CheckoutModal.tsx:268-326 | heading first, thanks last; the order id, name, phone, address and product lines (one per cart item) are present; the cost lines follow the rules above |
| Checkout.SubmitOrder | src/components/CheckoutModal.tsx:350-381 | no order iff the zone is the placeholder; otherwise subtotal is the prop, total is the final total, and cash, transfer and fee are the computed ones |
| Checkout.CheckoutModal.constructor | src/components/CheckoutModal.tsx:213-223 | empty customer data, the placeholder zone, no order, not processing |
| Checkout.CheckoutModal.HandleInputChange | src/components/CheckoutModal.tsx:237-243 | only the named customer field takes the new value |
| Checkout.CheckoutModal.SelectZone | src/components/CheckoutModal.tsx:219 | only the selected zone changes |
| Checkout.CheckoutModal.HandleGenerateOrder | src/components/CheckoutModal.tsx:329-338 | an invalid form changes nothing; a valid one stores an order text framed by heading and thanks, with the order id, name, phone, address and product lines and the cost lines of the current cart, and marks it generated |
| Checkout.CheckoutModal.HandleSubmit | src/components/CheckoutModal.tsx:350-388 | returns the order described by `SubmitOrder`; past the guard the processing flag ends cleared; customer data and zone are unchanged |
| Novelas.ShippedCatalogCosts | src/components/NovelasModal.tsx:9-110 | ten entries with ids 1 to 10; cash cost is `5*capitulos`, transfer is its 10% surcharge and strictly higher |
| Novelas.ShippedCatalogIgnoresConfiguredFee | src/components/NovelasModal.tsx:9-117 | no shipped transfer cost equals the surcharge at the configured 15% |
| Novelas.ShippedCatalogIdsUnique | src/components/NovelasModal.tsx:9-110 | the shipped catalog ids are distinct |
| Novelas.CatalogViewKeepsIdsDistinct | src/components/NovelasModal.tsx:146-153 | a catalog with distinct ids lists distinct ids |
| Novelas.WithDefaultPayment | src/components/NovelasModal.tsx:159-162 | every novela gets cash, and nothing else changes |
| Novelas.Toggle | src/components/NovelasModal.tsx:166-174 | an id is in the result iff exactly one of "it was selected" or "it is the toggled id" holds; an absent id is appended; a present one is removed |
| Novelas.ToggleKeepsNoDup | src/components/NovelasModal.tsx:166-174 | toggling never creates a duplicate |
| Novelas.ToggleTwiceRestoresAbsent | src/components/NovelasModal.tsx:166-174 | toggling an unselected id twice restores the list |
| Novelas.ToggleTwiceMovesPresentToEnd | src/components/NovelasModal.tsx:166-174 | toggling a selected id twice restores the set but moves that id to the end |
| Novelas.ToggleTwiceReorders | src/components/NovelasModal.tsx:166-174 | `[1, 2]` toggled twice on 1 becomes `[2, 1]` |
| Novelas.SetPaymentType | src/components/NovelasModal.tsx:176-184 | same length; entries with the id get the new payment type, all others are unchanged |
| Novelas.SetPaymentTypeKeepsIds | src/components/NovelasModal.tsx:176-184 | changing a payment type never changes the listed ids |
| Novelas.StoredCostsWin | src/components/NovelasModal.tsx:201-214 | non-zero stored costs are used whatever the current fee |
| Novelas.MissingNovelaFallsBack | src/components/NovelasModal.tsx:201-214 | a novela absent from the catalog costs `5*capitulos` in cash and its surcharge by transfer |
| Novelas.ZeroStoredCostFallsBack | src/components/NovelasModal.tsx:201-214 | stored costs of 0 fall back like missing ones |
| Novelas.ListedNovelaFindsItsEntry | src/components/NovelasModal.tsx:201-204 | with distinct catalog ids every listed novela finds its own catalog entry, so a non-zero stored cash cost is the one charged |
| Novelas.TransferFallbacksDisagree | src/components/NovelasModal.tsx:355 | the message's transfer fallback can differ from the totals' fallback (55 against 110) |
| Novelas.TransferFallbacksAgree | src/components/NovelasModal.tsx:355 | the two fallbacks agree when a transfer cost is stored or the cash cost is the chapter price |
| Novelas.TransferNotCheaper | src/components/NovelasModal.tsx:201-214 | with catalog transfer costs at least cash costs, a novela never costs less by transfer |
| Novelas.CalculateTotals | src/components/NovelasModal.tsx:195-230 | cash and transfer lists are exactly the selected listed novelas of each type; fee is transfer minus base; grand total is cash plus transfer |
| Novelas.SplitMatchesCharges | src/components/NovelasModal.tsx:198-209 | the cash sum plus the transfer sum equals the per-novela charges summed |
| Novelas.GrandTotalChargesSelection | src/components/NovelasModal.tsx:216-218 | the grand total is the sum of the selected novelas' own charges, with no delivery cost |
| Novelas.EmptySelectionTotals | src/components/NovelasModal.tsx:195-230 | with nothing selected every total is 0 and both lists are empty |
| Novelas.SelectAllAfterMountPaysCash | src/components/NovelasModal.tsx:158-218 | right after mount, selecting all lists every novela as cash, none by transfer, no surcharge, and the grand total is the cash total |
| Novelas.UnselectedChangeInvisible | src/components/NovelasModal.tsx:196 | changing the payment type of an unselected novela leaves the selected data unchanged |
| Novelas.UnselectedPaymentIrrelevant | src/components/NovelasModal.tsx:195-230 | changing the payment type of an unselected novela leaves all totals unchanged |
| Novelas.TransferSumNotCheaper | src/components/NovelasModal.tsx:206-214 | the transfer total is at least the transfer base total |
| Novelas.TransferFeeNonNegative | src/components/NovelasModal.tsx:216 | the transfer fee is non-negative when catalog transfer costs are at least cash costs |
| Novelas.ShippedTransferFeeNonNegative | src/components/NovelasModal.tsx:216 | with the shipped catalog and fee the transfer fee is non-negative |
| Novelas.SplitChapters | src/components/NovelasModal.tsx:196-199 | every novela is paid in cash, by transfer or not at all, so the chapters of the three filtered lists add up to the chapters of the whole list |
| Novelas.ChaptersCountSelection | src/components/NovelasModal.tsx:195-228 | the chapter count of the totals is the chapters of the cash and transfer lists plus those of selected novelas without a payment type; when every novela has one, it is the chapters of the two lists |
| Novelas.CashEntries | src/components/NovelasModal.tsx:335-343 | one numbered entry per cash novela with its cost; entry costs add up to the cash total |
| Novelas.TransferEntries | src/components/NovelasModal.tsx:352-364 | one numbered entry per transfer novela with base, surcharge and total; bases add up to the base total |
| Novelas.CashSection | src/components/NovelasModal.tsx:332-346 | empty without cash novelas; otherwise heading, every entry, then subtotal; amounts add up to the cash total |
| Novelas.TransferSection | src/components/NovelasModal.tsx:349-369 | empty without transfer novelas; otherwise heading with the fee, every entry, then subtotals |
| Novelas.SummarySection | src/components/NovelasModal.tsx:372-384 | counts, cash summary iff cash total > 0, transfer summary iff transfer total > 0, amount to pay, sender, date |
| Novelas.AssembledDescribes | src/components/NovelasModal.tsx:329-384 | intro, sections and summary together describe the selection |
| Novelas.SelectionMessage | src/components/NovelasModal.tsx:321-384 | no message iff nothing is selected; otherwise the message describes the selection and its totals |
| Novelas.EntriesMatchTransferTotal | src/components/NovelasModal.tsx:352-368 | where the two fallbacks agree, the entries' totals add up to the transfer total |
| Novelas.ShippedEntriesMatchTransferTotal | src/components/NovelasModal.tsx:352-368 | with the shipped catalog the entries' totals add up to the transfer total |
| Novelas.ShippedListIdsDistinct | src/components/NovelasModal.tsx:186-188 | "select all" selects distinct ids |
| Novelas.NovelasModal.constructor | src/components/NovelasModal.tsx:140-141 | nothing selected and nothing listed before mount |
| Novelas.NovelasModal.MountEffect | src/components/NovelasModal.tsx:158-164 | the list becomes the catalog with cash everywhere; the selection is untouched |
| Novelas.NovelasModal.HandleNovelToggle | src/components/NovelasModal.tsx:166-174 | the selection is toggled and stays duplicate-free |
| Novelas.NovelasModal.HandlePaymentTypeChange | src/components/NovelasModal.tsx:176-184 | the list's payment type changes for that id only |
| Novelas.NovelasModal.SelectAllNovelas | src/components/NovelasModal.tsx:186-188 | the selection becomes the catalog ids in catalog order, duplicate-free |
| Novelas.NovelasModal.ClearAllNovelas | src/components/NovelasModal.tsx:190-192 | the selection becomes empty |
| Novelas.NovelasModal.Totals | src/components/NovelasModal.tsx:195-230 | on the dialog's state the grand total charges each selected listed novela once, and the fee is transfer minus base |
| Novelas.NovelasModal.SendSelectedNovelas | src/components/NovelasModal.tsx:321-389 | no message iff the selection is empty; otherwise a message describing the current totals |

## Left out

- Persistence and I/O are left out: `localStorage` loading and saving, `JSON.parse` and `JSON.stringify`, alerts, `window.open`, the clipboard, `encodeURIComponent` and the WhatsApp URLs. `importConfig` is modelled on an already-parsed document with optional fields; a parse error is not modelled.
- Timestamps and random ids are left out: the export timestamp, `generateOrderId` and the message date. The ids and dates come in as parameters.
- Message wording is not modelled. Order texts and novela messages are sequences of typed lines that carry their amounts; emoji, separators and `toLocaleString` formatting are not modelled.
- The code-generation templates and file downloads in `src/context/AdminContext.tsx` are left out, as are `generateNovelListText` and `downloadNovelList` in `src/components/NovelasModal.tsx`. They produce text blobs and browser downloads.
- `src/types/admin.ts` is not part of this model. The default configuration is a constructor parameter of `AdminStore.AdminProvider`.
- Admin panels, the home page and the network services are left out. They are UI, timers and remote calls.
- Floating point is not modelled. `Money.Surcharged` is exact round-half-up. In IEEE doubles some exact halves land just below `.5` and round down.
- Imported data is not checked element by element. `AdminStore.ValidateImport` checks the same things the source does, so it does not check the elements of the imported lists either.
- Checkout.ItemLineOf: the source sorts `selectedSeasons` in place while formatting a line; the model does not capture that ordering side effect on the cart item.
- Checkout.CheckoutModal.HandleSubmit: the call to `onCheckout` is asynchronous; the model returns the order data instead, and the `try`/`catch` around it is not modelled.
- Checkout.ShippedZoneIds: only ids and the placeholder are proved about the shipped zones. That every other zone's path is its name under the city prefix is not proved.
- Checkout.GenerateOrderText: the zone line carries the selected path as it is; the display rewrite of its first ` > ` separator into an arrow is formatting and is not modelled.
- AdminStore.Reduce: its own contract says which elements a delete keeps and how many times; that the survivors keep their relative order is stated separately, by `AdminStore.DeleteNovelaKeepsOrder` and `AdminStore.DeleteZoneKeepsOrder`.
- Checkout.AddedZoneSelectable: the checkout reads a snapshot of the active zones that the admin panel writes into generated source files; `Checkout.ActiveZones` models its `filter(z => z.active)`, while the regeneration and export of those files is not modelled.
- AdminStore.ValidateImport: the pricing fields of an imported document are taken to be integers or absent; a field that is `null`, a non-numeric value or a price given as a string is not representable in the model.
- AdminStore.Merge: a patch field is either present or absent. The source's object spread also copies a field that is present with the value `undefined` over the stored one; the model treats such a field as absent and keeps the stored value.
- AdminStore.MergeZone: the same simplification as `AdminStore.Merge`; a zone patch field set to `undefined` is treated as absent.
