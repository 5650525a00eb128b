# TradeDirection signal derivation, in Dafny

This project models the signal-derivation core of the TradeDirection
dashboard. The dashboard turns the readings a trader types in into a bias
for each pair:

- A trader types three timeframe readings (daily, 4-hour, 1-hour) per
  currency.
- Each currency gets a strength score T, the sum of its readings, and a
  five-band strength label S of T.
- Each pair of the fixed 21-pair taxonomy gets a BUY/SELL/NEUTRAL bias from
  the labels of its base and quote.

It also models:

- the pip-value calculator;
- the currency and pair filters of the dashboard;
- the flattened pair/bias list handed to the insight service;
- the four-tab navigation, which refuses to open the trade plan while no
  reading is non-zero.

The modules follow the source files:

- `JsStrings` holds the JavaScript string built-ins the logic uses:
  `toUpperCase`, `toLowerCase`, `includes` and `endsWith`.
- `Constants` (`src/lib/constants.ts`) holds:
  - the currency set, the correlation record and its zeroed initial table;
  - the pair taxonomy as a literal;
  - the label and bias enumerations;
  - the proved facts about the taxonomy: how it is spelled, its bases, and
    that its symbols are distinct.
- `TradeUtils` (`src/lib/trade-utils.ts`) holds `calculateT`,
  `calculateS`, `calculateBias` and `calculatePipValue`, with its
  `JPY_PAIRS` test.
  - `calculateT` is `CalculateT`, the plain sum. Its value is stated
    where it is used, by `CorrelationTableData`.
- `TradeInsightsDashboard` (`src/components/trade-insights-dashboard.tsx`)
  holds the memoised derivations as functions over sequences. It also has
  a class `Dashboard`:
  - its fields are the two pieces of React state the handlers replace,
    `correlationData` and `activeTab`;
  - its methods are `handleCorrelationChange`, `navigateToTab`,
    `handleNext` and `handlePrev`.

Numbers are modelled as `real`.

JavaScript's `parseFloat` is a parameter of the edit:

- `Some(v)` is the number it produced.
- `None` stands for NaN.

The toast of `navigateToTab` is a returned flag, `toastShown`.

## Model

| member | source | states |
|---|---|---|
| `JsStrings.IncludesIffOccurs` | src/lib/trade-utils.ts:39 | `includes` holds exactly when the needle occurs at some position of the string |
| `JsStrings.IncludesEmpty` | src/components/trade-insights-dashboard.tsx:96 | every string includes the empty string, so an empty filter matches everything |
| `JsStrings.IncludesSameLength` | src/lib/trade-utils.ts:39 | for strings of equal length, `includes` is equality |
| `JsStrings.LowerCaseOfUpperCase` | src/components/trade-insights-dashboard.tsx:107 | lower-casing after upper-casing is lower-casing, so the filters ignore case |
| `Constants.PairsOfMembership` | src/components/trade-insights-dashboard.tsx:114 | a pair is in the flattened groups iff some group lists it |
| `Constants.AllPairsCount` | src/lib/constants.ts:33-85 | the taxonomy holds 21 pairs |
| `Constants.InitialDataOneZeroRowPerCurrency` | src/lib/constants.ts:1-19 | the initial table has 8 rows, one per currency, in order, with every reading 0; the currency list covers every currency once |
| `Constants.PairsFitTheirIndex` | src/lib/constants.ts:33-85 | every pair has base ≠ quote, a base equal to its group's index (GOLD under XAU) and the symbol base code + quote code (GOLD spelled XAU); no group lists a quote twice |
| `Constants.GroupIndexes` | src/lib/constants.ts:33-85 | the group indexes are EUR, GBP, USD, AUD, NZD and XAU |
| `Constants.XauGroupIsGold` | src/lib/constants.ts:79-84 | the XAU group's only pair is XAUUSD, GOLD against USD |
| `Constants.PairBases` | src/lib/constants.ts:33-85 | every pair is based on EUR, GBP, USD, AUD or NZD, except XAUUSD |
| `Constants.CodesDetermineSides` | src/lib/constants.ts:36-82 | a symbol spelled from two codes determines its base and quote |
| `Constants.GroupBasesDistinct` | src/lib/constants.ts:33-85 | no two groups share an index currency |
| `Constants.PairSymbolsDistinct` | src/lib/constants.ts:33-85 | the 21 pair symbols are pairwise distinct |
| `TradeUtils.CalculateS` | src/lib/trade-utils.ts:7-13 | the five bands exactly: t ≥ 3 Extreme Strong, 1 ≤ t < 3 Strong, -1 < t < 1 Neutral, -3 ≤ t ≤ -1 Weak, t < -3 Extreme Weak, each as an iff |
| `TradeUtils.CalculateSMonotone` | src/lib/trade-utils.ts:7-13 | a higher score never gets a lower label |
| `TradeUtils.CalculateSMirror` | src/lib/trade-utils.ts:7-13 | negating the score mirrors the label exactly when t is neither 3 nor -3 |
| `TradeUtils.CalculateBias` | src/lib/trade-utils.ts:15-26 | BUY iff base strong and quote weak; SELL iff base weak and quote strong; NEUTRAL otherwise |
| `TradeUtils.CalculateBiasAntisymmetric` | src/lib/trade-utils.ts:15-26 | swapping base and quote swaps BUY and SELL and keeps NEUTRAL |
| `TradeUtils.CalculateBiasNeutralCases` | src/lib/trade-utils.ts:15-26 | a Neutral side, or two labels on the same side, give NEUTRAL |
| `TradeUtils.CalculatePipValue` | src/lib/trade-utils.ts:29-59 | zero when pips or lot size is zero; otherwise pips × lot × the rate of the name's class (10 for XAUUSD, 9.3 for a yen pair, 7.3 for a CAD suffix, 12.5 for a GBP suffix, 10 otherwise), first match winning |
| `TradeUtils.PipClassOfIgnoresCase` | src/lib/trade-utils.ts:32-51 | a name and its upper-cased form have the same class |
| `TradeUtils.CalculatePipValueIgnoresCase` | src/lib/trade-utils.ts:29-59 | a name and its upper-cased form have the same pip value |
| `TradeUtils.CalculatePipValueBilinear` | src/lib/trade-utils.ts:56 | the pip value is additive in the pip count and in the lot size |
| `TradeUtils.JpyPairsSpelled` | src/lib/trade-utils.ts:38 | the five yen pairs are the codes of EUR, GBP, USD, AUD, NZD followed by JPY |
| `TradeUtils.GoldSymbol` | src/lib/trade-utils.ts:32 | a two-code symbol is XAUUSD only for GOLD against USD |
| `TradeUtils.YenSymbol` | src/lib/trade-utils.ts:38-39 | a two-code symbol contains a yen pair iff it is quoted in JPY with one of the five bases |
| `TradeUtils.SuffixSymbol` | src/lib/trade-utils.ts:49-51 | a two-code symbol ends with a code iff that code is its quote |
| `TradeUtils.PipClassOfSymbol` | src/lib/trade-utils.ts:32-53 | the class of a two-code symbol as a function of its base and quote |
| `TradeUtils.TaxonomyPipClasses` | src/lib/trade-utils.ts:32-53 | on every taxonomy pair, the class follows from its data: gold for XAUUSD, otherwise decided by the quote |
| `TradeUtils.YenQuotedPairsAreJpyPairs` | src/lib/trade-utils.ts:38 | a taxonomy pair is quoted in JPY iff it is one of the yen pairs |
| `TradeUtils.JpyPairsAreListed` | src/lib/trade-utils.ts:38 | every yen pair is a pair of the taxonomy |
| `TradeInsightsDashboard.CorrelationAfterChange` | src/components/trade-insights-dashboard.tsx:59-68 | a NaN input changes nothing; otherwise only the named field of rows with the id changes, to the value (0 for the empty input); count, order, ids, other rows and other fields are kept |
| `TradeInsightsDashboard.CorrelationChangeIdempotent` | src/components/trade-insights-dashboard.tsx:63-67 | repeating an edit changes nothing more |
| `TradeInsightsDashboard.CorrelationChangeUndone` | src/components/trade-insights-dashboard.tsx:63-67 | editing a reading to the value it holds leaves the table as it is |
| `TradeInsightsDashboard.CorrelationTableData` | src/components/trade-insights-dashboard.tsx:70-76 | same length and order as the data; each row carries its reading, t = d1 + 4h + 1h (`calculateT`) and s = `CalculateS(t)`: Neutral iff -1 < t < 1, strong iff t ≥ 1, weak iff t ≤ -1 |
| `TradeInsightsDashboard.HasCorrelationValues` | src/components/trade-insights-dashboard.tsx:78-80 | true iff some row has t ≠ 0 |
| `TradeInsightsDashboard.HasCorrelationValuesOfData` | src/components/trade-insights-dashboard.tsx:70-80 | the flag is up iff some currency's readings do not sum to 0 |
| `TradeInsightsDashboard.CorrelationChangeRescoresOneCurrency` | src/components/trade-insights-dashboard.tsx:59-76 | after an edit, the scored rows of other currencies are unchanged and the edited row's T moves by the change of the reading |
| `TradeInsightsDashboard.InitialTableIsNeutral` | src/components/trade-insights-dashboard.tsx:45 | on the initial table every T is 0, every label Neutral, and the flag is down |
| `TradeInsightsDashboard.SValueMapKeys` | src/components/trade-insights-dashboard.tsx:83 | the label map has a key exactly for each id of the table |
| `TradeInsightsDashboard.SValueMapLastWins` | src/components/trade-insights-dashboard.tsx:83 | for a repeated id the last row's label wins |
| `TradeInsightsDashboard.LookupInTable` | src/components/trade-insights-dashboard.tsx:83-86 | the label looked up for a currency is its row's label when it has one row, and Neutral when it has none |
| `TradeInsightsDashboard.GroupsWithBias` | src/components/trade-insights-dashboard.tsx:84-92 | dropping the labels gives back the groups (order, count, indexes, pairs); each pair carries the looked-up labels of its sides and their bias |
| `TradeInsightsDashboard.ForexPairsWithBiasByGroup` | src/components/trade-insights-dashboard.tsx:82-93 | the result has the shape of the taxonomy |
| `TradeInsightsDashboard.AllNeutralGivesNeutralBias` | src/components/trade-insights-dashboard.tsx:85-88 | when every row is Neutral, every pair is Neutral on both sides and NEUTRAL |
| `TradeInsightsDashboard.InitialBiasIsNeutral` | src/components/trade-insights-dashboard.tsx:82-93 | on the initial table every pair of the taxonomy is NEUTRAL |
| `TradeInsightsDashboard.PairLabelsFromRows` | src/components/trade-insights-dashboard.tsx:82-93 | on a table with one row per currency, each pair carries its currencies' labels S(T) and their bias |
| `TradeInsightsDashboard.KeyedByCurrencies` | src/lib/constants.ts:10-19 | a table whose ids follow the currency list has one row per currency |
| `TradeInsightsDashboard.EurUsdScenario` | src/components/trade-insights-dashboard.tsx:70-93 | EUR read 3, 2, 2 and USD read -2, -1, -1 make EURUSD Extreme Strong against Extreme Weak, a BUY |
| `TradeInsightsDashboard.InsightInputOfGroups` | src/components/trade-insights-dashboard.tsx:113-115 | the input built from any biased groups lists the groups' pairs in order, each with its symbol and the bias of its base and quote labels looked up in the map |
| `TradeInsightsDashboard.FlattenGroupsWithBias` | src/components/trade-insights-dashboard.tsx:114 | flattening the biased groups lists the groups' pairs in order, each with its bias |
| `TradeInsightsDashboard.InsightInputOfTable` | src/components/trade-insights-dashboard.tsx:113-115 | the insight input has 21 entries in taxonomy order, each the pair's symbol and the bias of its sides' labels |
| `TradeInsightsDashboard.FilteredCurrencies` | src/components/trade-insights-dashboard.tsx:95-98 | the result keeps exactly the rows whose lower-cased id includes the lower-cased filter |
| `TradeInsightsDashboard.FilteredCurrenciesAppend` | src/components/trade-insights-dashboard.tsx:95-98 | filtering a concatenation is the concatenation of the filtered parts, so order and repeats are kept |
| `TradeInsightsDashboard.FilteredCurrenciesSingle` | src/components/trade-insights-dashboard.tsx:95-98 | one row is kept iff its id matches the filter |
| `TradeInsightsDashboard.FilteredCurrenciesEmptyFilter` | src/components/trade-insights-dashboard.tsx:95-98 | the empty filter keeps every row, in order |
| `TradeInsightsDashboard.FilterPairs` | src/components/trade-insights-dashboard.tsx:107 | keeps exactly the pairs whose lower-cased symbol includes the lower-cased filter |
| `TradeInsightsDashboard.FilterPairsAppend` | src/components/trade-insights-dashboard.tsx:107 | filtering a concatenation of pairs is the concatenation of the filtered parts |
| `TradeInsightsDashboard.FilterPairsSingle` | src/components/trade-insights-dashboard.tsx:107 | one pair is kept iff its symbol matches the filter |
| `TradeInsightsDashboard.NarrowGroups` | src/components/trade-insights-dashboard.tsx:104-109 | a group is in the result iff it is some group narrowed to its matching pairs that still has pairs or a matching index |
| `TradeInsightsDashboard.NarrowGroupsAppend` | src/components/trade-insights-dashboard.tsx:104-109 | narrowing a concatenation of groups is the concatenation of the narrowed parts, so the groups keep their order |
| `TradeInsightsDashboard.NarrowGroupsSingle` | src/components/trade-insights-dashboard.tsx:104-109 | one group becomes its narrowed form if that has pairs or a matching index, and nothing otherwise |
| `TradeInsightsDashboard.FilterPairGroups` | src/components/trade-insights-dashboard.tsx:100-110 | the empty filter returns the groups unchanged; otherwise every pair left is a listed pair containing the filter, every group left has pairs or a matching index, and a narrowed group is left iff it is kept |
| `TradeInsightsDashboard.FilterPairGroupsAppend` | src/components/trade-insights-dashboard.tsx:100-110 | for every filter, the result on a concatenation is the concatenation of the results |
| `TradeInsightsDashboard.FilterPairGroupsSingle` | src/components/trade-insights-dashboard.tsx:100-110 | the empty filter keeps one group as it is; any other filter turns it into its narrowed form if that is kept, and into nothing otherwise |
| `TradeInsightsDashboard.FilteredPairGroups` | src/components/trade-insights-dashboard.tsx:100-103 | the empty filter returns the taxonomy unchanged |
| `TradeInsightsDashboard.FilterPairsIgnoresCase` | src/components/trade-insights-dashboard.tsx:107 | an upper-cased filter picks the same pairs |
| `TradeInsightsDashboard.NarrowGroupsIgnoresCase` | src/components/trade-insights-dashboard.tsx:104-109 | an upper-cased filter narrows to the same groups |
| `TradeInsightsDashboard.PairFilterIgnoresCase` | src/components/trade-insights-dashboard.tsx:100-110 | `filteredPairGroups` gives the same groups for a filter and its upper-cased form |
| `TradeInsightsDashboard.FindIndex` | src/components/trade-insights-dashboard.tsx:164 | the first position holding the tab, or -1 iff none does |
| `TradeInsightsDashboard.TabIndexInRange` | src/components/trade-insights-dashboard.tsx:52-57 | every tab is found at a position in [0, 3], and each position is where its own tab is found |
| `TradeInsightsDashboard.TabIndex` | src/components/trade-insights-dashboard.tsx:177 | the position of the active tab is in [0, 3] and holds it |
| `TradeInsightsDashboard.FirstStepIsGated` | src/components/trade-insights-dashboard.tsx:151-168 | a fresh session is on tab 0, its next tab is the trade plan, and no value is entered, so stepping forward is refused |
| `TradeInsightsDashboard.InitialDataKeyed` | src/components/trade-insights-dashboard.tsx:45 | the initial table has one row per currency |
| `TradeInsightsDashboard.Dashboard.constructor` | src/components/trade-insights-dashboard.tsx:43-45 | a session starts on the correlation tab with the initial table, keyed and with no values |
| `TradeInsightsDashboard.Dashboard.HandleCorrelationChange` | src/components/trade-insights-dashboard.tsx:59-68 | the table becomes `CorrelationAfterChange` of the old table; one row per currency is preserved; the tab is untouched |
| `TradeInsightsDashboard.Dashboard.NavigateToTab` | src/components/trade-insights-dashboard.tsx:151-161 | the trade plan is refused with a toast while no value is entered, leaving the tab; any other request is followed |
| `TradeInsightsDashboard.Dashboard.HandleNext` | src/components/trade-insights-dashboard.tsx:163-168 | below the last tab, the next tab is requested through the gate; on the last tab nothing happens; the index advances by at most one |
| `TradeInsightsDashboard.Dashboard.HandlePrev` | src/components/trade-insights-dashboard.tsx:170-175 | the index goes back exactly one unless it is 0, where nothing happens; never gated |

## Left out

- **Out of scope:**
  - All JSX rendering, badge styling, the disabled state of tab buttons, and the toast's text and styling. The toast is the flag `toastShown`.
  - The insight request (`handleGenerateInsights`, its `startTransition` and loading flags, lines 117-133).
    - The model builds its input (`InsightInput`), but the request itself is an asynchronous call to a language-model service. The server action around it is not part of this model.
    - The handler reads `result.recommendations`, but that action returns `insights`.
  - The QR scanner (camera, foreign decoder), the session timeline (wall clock, timers, layout arithmetic) and the page wrapper.
- **How things are represented:**
  - Floating point: readings and results are exact reals. IEEE rounding (as in `pips * 0.1 * lotSize * 100`), Infinity and NaN propagation are not modelled.
  - `parseFloat` is a parameter of the edit, and NaN is `None`.
  - `calculateS(NaN)` would fall through to Extreme Weak. This cannot arise, because the edit rejects NaN before it reaches the table.
  - `toUpperCase`/`toLowerCase` are modelled on ASCII letters only. Currency codes, pair symbols and group indexes are ASCII.
  - The text inputs that set `currencyFilter` and `pairFilter` are not modelled. The filters are parameters of the derivations.
  - `TabEntry` renames the tab field `label` to `tabLabel`, because `label` is a keyword in Dafny.
- **Follows the code:**
  - The code has no confidence score per pair, no budget items with risk and reward summaries, no validation of the insight service's reply and no second, wide set of label bands, so none of these is modelled.
  - The bands give USD at T = -4 the label Extreme Weak (t < -3), and `EurUsdScenario` states that.

