# Industrial CRM deal tracker — Dafny model

The application is a single React component that keeps two lists, properties
and brokers, and shows underwriting figures on each property card. This project
models the component's non-UI logic as pure Dafny functions and proves what it
guarantees:

- **Deal metrics** (`calculateMetrics`): annual rent, NOI, DSCR, LTV and
  cash-on-cash from a property's text fields. Each field goes through
  `parseFloat(x) || 0`, which is modelled as an `Option<real>` (`None` is `NaN`)
  read with JavaScript truthiness: `NaN` and `0` both fall back. Monthly rent
  falls back to base rent per square foot × square feet. The three ratios are
  `NA` (the card's 'N/A') exactly when their denominator is not positive.
  Arithmetic is exact over `real`.
- **Record lists** (`handleSaveProperty`/`handleDeleteProperty`,
  `handleSaveBroker`/`handleDeleteBroker`): a save with an empty required field
  (address, broker name) is refused with the alert's message. Otherwise an edit
  replaces the records carrying `editingId` and an add appends the form under a
  fresh id. Delete filters by id. Both kinds of record share one generic
  implementation (`Records`), since the source repeats the same code for both.
- **Search** (`filteredProperties`): a case-insensitive substring filter on
  address or Crexi link.

Modules: `Wrappers` (Option, Result), `Seqs` (order-preserving filter and
subsequences), `Text` (`toLowerCase`, `includes`), `Records` (generic
save/delete by id), `Crm` (properties, brokers, search), `Metrics`.

The property form labels the rate field "Base Rent/Sq Ft/Year"
(src/App.jsx:214), but `calculateMetrics` uses rate × area as a *monthly*
rent. Without an entered monthly rent, the annual rent shown is therefore 12 ×
the yearly rent the label describes. `Metrics.Calculate` keeps the code's
behaviour, because that is what the card displays. `Metrics.CalculateAsLabelled`
is the corrected calculation; see "## Findings".

## Model

| member | source | states |
|---|---|---|
| Metrics.OrElse | src/App.jsx:113 | a parsed field with a fallback: the fallback is used exactly when the field is NaN or reads 0, the parsed value otherwise |
| Metrics.Num | src/App.jsx:111-117 | `parseFloat(x) \|\| 0` is 0 exactly when the field is missing, unparsable or 0, and the parsed value otherwise |
| Metrics.Derive | src/App.jsx:114-123 | from monthly rent, price, equity and monthly debt service: annual rent is 12 × monthly rent, NOI equals it, and each ratio is N/A exactly when its denominator figure is not positive |
| Metrics.Calculate | src/App.jsx:110-126 | annual rent is 12 × monthly rent, NOI equals annual rent (no expenses), and DSCR, LTV and cash-on-cash are N/A exactly when debt service, price or equity is not positive |
| Metrics.BlankInputs | src/App.jsx:110-126 | with every field NaN, rent and NOI are 0 and every ratio is N/A |
| Metrics.SameFiguresSameMetrics | src/App.jsx:110-126 | the metrics depend only on the defaulted figures (monthly rent, price, equity, debt service) |
| Metrics.FalsyRentFieldIsZero | src/App.jsx:111-113 | for square feet, rate and monthly rent, a missing or unparsable value gives the same metrics as 0 |
| Metrics.FalsyFinanceFieldIsZero | src/App.jsx:115-117 | for price, equity and debt service, a missing or unparsable value gives the same metrics as 0 |
| Metrics.FalsyRentInputsGiveNoRent | src/App.jsx:111-114 | with no monthly rent and a falsy area or rate, annual rent and NOI are 0 |
| Metrics.AnnualRentSource | src/App.jsx:113-114 | annual rent is 12 × the entered monthly rent when it is non-zero, and 12 × rate × area otherwise |
| Metrics.DscrCoversDebtService | src/App.jsx:117-121 | when DSCR is shown, DSCR × annual debt service recovers NOI |
| Metrics.LtvRecoversEquity | src/App.jsx:115-122 | when LTV is shown, price × (100 − LTV)/100 recovers the equity; no equity gives 100, equity equal to price gives 0 |
| Metrics.LtvInRangeIffEquityInRange | src/App.jsx:115-122 | LTV is within [0, 100] exactly when equity is within [0, price] |
| Metrics.CashOnCashRecoversCashFlow | src/App.jsx:116-123 | when cash-on-cash is shown, it × equity / 100 recovers NOI − annual debt service; with no debt service it is NOI / equity × 100 |
| Metrics.CoverageIffPositiveCashOnCash | src/App.jsx:117-123 | when DSCR and cash-on-cash are both shown, DSCR > 1 exactly when cash-on-cash > 0 |
| Metrics.IntendedMonthlyRent | src/App.jsx:113 | corrected fallback: the entered monthly rent when non-zero, otherwise a twelfth of the yearly rate × area the label describes |
| Metrics.CalculateAsLabelled | src/App.jsx:110-126 | corrected metrics: identical to `Calculate` when a monthly rent is entered; otherwise annual rent equals rate × area; same guards |
| Metrics.FallbackRentIsTwelveFold | src/App.jsx:113-114 | as written, without an entered monthly rent the annual rent is 12 × the label-consistent annual rent |
| Metrics.YearlyRateShownTwelveFold | src/App.jsx:113-114 | 1,000 sq ft at a labelled $12/sq ft/year shows $144,000 a year instead of $12,000 |
| Metrics.ExampleDeal | src/App.jsx:110-126 | a worked deal: 100,000 sq ft at $1.00, $10M price, $3M equity, $35,000/month debt gives NOI 1,200,000, DSCR 20/7, LTV 70, CoC 26 |
| Records.IsEditing | src/App.jsx:62 | a save is in add mode exactly when the editing id is absent or 0, the two falsy values it can take |
| Records.ReplaceById | src/App.jsx:63 | the edit `map`: same length, records with the edited id become the form with that id, all others are unchanged at their index |
| Records.Upsert | src/App.jsx:62-66 | edit mode (a truthy `editingId`) keeps the id sequence, writes the form into the records carrying the id and leaves the others; add mode keeps the list as a prefix and appends exactly the form under the fresh id |
| Records.RemoveById | src/App.jsx:72-74 | delete keeps no record with the id and keeps every record with another id |
| Records.RemoveByIdExact | src/App.jsx:73 | delete result is an order-preserving subsequence in which each other-id record keeps its multiplicity and the id's records are gone |
| Records.RemoveIdempotent | src/App.jsx:73 | deleting the same id twice equals deleting it once |
| Records.RemoveAbsentIsNoop | src/App.jsx:73 | deleting an id nobody carries changes nothing |
| Records.RemovePresentDropsOne | src/App.jsx:72-74 | with unique ids, deleting record k's id removes exactly record k |
| Records.UpsertKeepsUnique | src/App.jsx:62-66 | a save keeps ids unique when the added id is fresh |
| Records.RemoveKeepsUnique | src/App.jsx:72-74 | a delete keeps ids unique |
| Records.EditChangesOnlyTarget | src/App.jsx:62-63 | with unique ids, an edit of record k's id is exactly `list[k := form with that id]` |
| Records.EditOfUnknownIdIsNoop | src/App.jsx:62-63 | an edit whose id no record carries leaves the list unchanged |
| Records.RemoveUndoesAdd | src/App.jsx:65-73 | deleting the record just added under a fresh id restores the list |
| Crm.SaveProperty | src/App.jsx:56-66 | refused, with "Please enter an address", exactly when the address is empty; otherwise the upsert |
| Crm.DeleteProperty | src/App.jsx:72-74 | removes the properties with the id and keeps all others |
| Crm.SaveBroker | src/App.jsx:89-99 | refused, with "Please enter broker name", exactly when the name is empty; otherwise the upsert |
| Crm.DeleteBroker | src/App.jsx:105-107 | removes the brokers with the id and keeps all others |
| Crm.SavePropertyKeepsValid | src/App.jsx:56-66 | a successful save keeps every property addressed and ids unique |
| Crm.DeletePropertyKeepsValid | src/App.jsx:72-74 | a delete keeps every property addressed and ids unique |
| Crm.SaveBrokerKeepsValid | src/App.jsx:89-99 | a successful save keeps every broker named and ids unique |
| Crm.DeleteBrokerKeepsValid | src/App.jsx:105-107 | a delete keeps every broker named and ids unique |
| Crm.Matches | src/App.jsx:129-130 | the executable search test holds exactly when the lower-cased term occurs in the lower-cased address or Crexi link |
| Crm.FilterProperties | src/App.jsx:128-131 | the result holds exactly the properties whose lower-cased address or Crexi link contains the lower-cased term |
| Crm.FilterPropertiesExact | src/App.jsx:128-131 | the search result is an order-preserving subsequence keeping each match's multiplicity |
| Crm.EmptySearchShowsAll | src/App.jsx:128-131 | an empty term returns every property |
| Crm.SearchIgnoresTermCase | src/App.jsx:128-131 | searching for a term and for its lower-case form gives the same result |
| Crm.BlankFormShowsNoFigures | src/App.jsx:32-45 | a property saved from the blank add form, with `parseFloat('')` NaN, shows 0 rent and NOI and N/A for every ratio |
| Seqs.Filter | src/App.jsx:73 | `filter` keeps exactly the elements passing the test: nothing else enters, nothing passing is lost, never longer than the input |
| Text.Lower | src/App.jsx:129-130 | `toLowerCase` keeps the length, lower-cases each letter and leaves other characters alone |
| Text.LowerIdempotent | src/App.jsx:129-130 | lower-casing twice is lower-casing once |
| Text.Includes | src/App.jsx:129-130 | `includes` holds exactly when the term occurs as a contiguous block |
| Text.IncludesEmpty | src/App.jsx:129-130 | every string includes the empty string |

## Left out

- React rendering, tabs, form visibility, `formData` editing and its reset after a save: UI state, not logic.
- `localStorage` loading and saving and the JSON round trip: I/O.
- `alert`: a refused save returns `Failure(message)` and the list is not updated.
- `Date.now()`: the new id is a parameter. That it is unused is a hypothesis of the invariant lemmas, not a precondition of the save.
- `toFixed` string formatting and IEEE-754 rounding: metrics are exact reals. NaN or Infinity from a zero denominator cannot arise because of the guards.
- `parseFloat` itself: its result is an `Option<real>` (or an opaque `parse` parameter in `Crm.BlankFormShowsNoFigures`). Prefix parsing such as "1,000" → 1 and an `Infinity` result are not modelled.
- The `exitCapRate`, `notes` and broker-association fields are stored but never used by the logic.
- Property records without a `crexi` field are not modelled: every field here is a string. Such records can come from storage. They can also come from the UI: the two forms share `formData` (src/App.jsx:12), and opening the broker form (src/App.jsx:77-81) replaces it while the property form stays open, so a property saved then has no `crexi`. For such a record, the source's search throws only when the term does not occur in the address, because `||` short-circuits (src/App.jsx:129-130). An empty term never throws.
- Text.Lower: maps only ASCII `A`–`Z`. Full Unicode case mapping of `toLowerCase` is not modelled.
- Records.Upsert: ids are unbounded integers. JavaScript number precision of `Date.now()` ids is not modelled.
- `calculateMetrics` computes no amortization, cap rate, exit value or equity multiple; none is modelled.

## Findings

| source | as written | input that shows it | evidently intended | confidence | as-written member | corrected member |
|---|---|---|---|---|---|---|
| src/App.jsx:113 | with no monthly rent entered, the fallback monthly rent is rate × area, although the rate field is labelled per square foot per year (src/App.jsx:214) | 1,000 sq ft, rate 12, no monthly rent: annual rent 144,000 | fallback monthly rent is rate × area / 12, so annual rent is 12,000 | medium, not executed | Metrics.FallbackRentIsTwelveFold | Metrics.CalculateAsLabelled |
