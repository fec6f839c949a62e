# kar-hesap pricing core, modelled in Dafny

kar-hesap is a profit calculator for jewellery sellers. There are three calculators:

- gold retail: a 14-karat product priced from its weight, labour millem and the gold price;
- silver retail;
- wholesale gold.

Each calculator keeps a list of *sale scenarios*. A scenario has a name, a commission rate, a sale price and an optional target profit rate. Two names are special:

- "Standart" and "Astarlı Ürün" are *automatic* scenarios: their price is re-solved from their target whenever the inputs change;
- user-added scenarios are named "Senaryo N".

This project models the following:

- **Gold pricing engine** (module `Calculations`):
  - pure-gold grams, product amount and purchase price;
  - the per-scenario profit breakdown: commission, withholding tax, total expenses, net profit, profit rate and bank deposit ("bankaya yatan");
  - the display order of all scenarios;
  - the solver that returns the sale price reaching a target profit rate.
- **The server's copy of that engine** (`ServerCalculations`). It has no laser term, counts missing fields as 0, never charges the extra chain, and rounds up the solver's fallback price.
- **Display order** (`PlatformOrder`, `ScenarioNames`): "Standart" first, then "Senaryo N" by ascending N. The scenario number is read out of a name by the unanchored pattern `Senaryo (\d+)`.
- **Scenario-list operations the calculators share** (`Scenarios`):
  - the next free "Senaryo k" number;
  - removing by index;
  - writing the settings' rates into the automatic scenarios;
  - the automatic re-pricing effect, which copies the list lazily into an array;
  - edits of one field.
- **The gold calculator and its input form** (`ProfitCalculator`, `InputForm`):
  - the default and restored scenario lists, and applying the settings dialog;
  - the best scenario;
  - the saved calculations: save, delete, and drag to reorder (an in-place splice on an array);
  - adding, removing and editing scenarios;
  - the special packaging switch;
  - the weight and gold-price text parsers;
  - the 50 cm / 60 cm chain buttons, modelled as a `GramField` class with the weight, the chain selection and the typed text as fields.
- **The silver calculator and its input form** (`SilverCalculator`, `SilverInputForm`):
  - the default lists and restored prices;
  - the settings dialog and the re-pricing;
  - the merge of server and local results (`ResultMerge`);
  - adding a scenario or the lined product, removing, and editing;
  - the extra-cost text parser.
- **The wholesale calculator** (`WholesaleCalculator`):
  - the default list and re-pricing;
  - the settings dialog;
  - adding, removing and editing scenarios;
  - the result merge;
  - the conversion of a result for the results table.

Conventions:

- Amounts are `real`.
- `Math.ceil`, `Math.round`, `toFixed(3)` and `Math.round(x * 1000) / 1000` are written out with `Floor` (module `JsNumber`).
- JavaScript's `||` on numbers is `Or`/`OptOr`, and `??` is `GetOr`.
- A quotient that may divide by zero is a `Num`, which is finite, NaN or ±Infinity.
- `parseFloat`, `replace`, `filter` and `trim` are modelled on strings (module `JsText`).
- Three kinds of value come in as parameters:
  - whatever the browser stores or the clock reads;
  - the silver and wholesale solvers, which are not part of this model;
  - `localeCompare`.

Three facts about the code shape the model:

- The client engine (`src/utils/calculations.ts`) rounds nothing except the solver's final `Math.ceil`. It returns the solver's fallback price unrounded, and `Calculations.FallbackIsNotRounded` exhibits a fractional one.
- Only the server copy (`server/calculations.js`) rounds the fallback up. `ServerCalculations.ServerMatchesClient` states exactly how far the two copies agree.
- No modelled file sets `optimumScore` in the profit breakdown, so `Calculations.Profit` ensures it is absent.

## Model

| member | source | states |
|---|---|---|
| Calculations.PureGoldGram | src/utils/calculations.ts:7-10 | Pure-gold grams are (labour millem + 0.585) × weight, plus laser millem × weight only when laser cutting is on. With non-negative weight and millems they are at least the 14-karat content 0.585 × weight |
| Calculations.ProductAmount | src/utils/calculations.ts:13-15 | The product amount is never negative for non-negative grams and price, is 0 when either is 0, and is positive when both are |
| Calculations.PurchasePrice | src/utils/calculations.ts:19-28 | The purchase price is the product amount, whatever weight, labour millem and gold price are passed |
| Calculations.PurchaseFormula | src/utils/calculations.ts:4-28 | The purchase price is (labour millem + laser millem when laser cutting is on + 0.585) × weight × gold price, and `calculatePurchasePrice` ignores its last three arguments |
| Calculations.Profit | src/utils/calculations.ts:30-91 | The breakdown echoes name, commission and price. Commission is price × rate / 100. Total expenses are the fixed costs plus price × tax rate / 100. Net profit is price less purchase, expenses and commission. Bank deposit exceeds net profit by exactly purchase + packaging + service fee + extra chain + special packaging. The profit rate is finite exactly when the price is non-zero, and is then net profit × 100 / price. No optimum score is set |
| Calculations.DepositCoversProfit | src/utils/calculations.ts:61-79 | With non-negative weight, millems, gold price and fees, the bank deposit is at least the net profit |
| Calculations.ZeroTaxRateIsOne | src/utils/calculations.ts:53-91 | A tax rate of 0 gives exactly the same breakdown and the same solved price as a tax rate of 1.00 |
| Calculations.AllPlatforms | src/utils/calculations.ts:93-125 | One result per scenario. The results are the breakdowns of a permutation of the input. When any scenario is "Standart", the first result is one. When every name is "Standart" or holds "Senaryo N", the results come in ascending rank order (Standart, then N ascending) |
| Calculations.StandardSalePrice | src/utils/calculations.ts:128-176 | With a positive denominator (1 − tax% − commission% − target%) the price is a whole number S with x ≤ S < x + 1, where x = (purchase + fixed costs without tax) / denominator. Otherwise it is weight × gold price × 1.2, not rounded |
| Calculations.FallbackIsNotRounded | src/utils/calculations.ts:164-170 | One gram at a gold price of 1 with commission and target 50 each takes the fallback, and the price it gives is not a whole number |
| Calculations.SalePriceRoundTrip | src/utils/calculations.ts:128-176 | With a positive denominator and positive purchase + fixed costs, selling at the solved price with the same commission reaches at least the target profit rate |
| Calculations.NoCommissionEarnsMore | src/utils/calculations.ts:53-76 | At the same positive price, a scenario without commission has a profit rate no lower than one with a non-negative commission |
| Calculations.ResultNames | src/utils/calculations.ts:122-124 | The names of the results, in order |
| PlatformOrder.Compare | src/utils/calculations.ts:100-120 | A "Standart" left operand sorts first, and otherwise a "Standart" right operand sorts first. When either name has no scenario number, the order is `localeCompare`'s. The order between two numbered names is `PlatformOrder.CompareFollowsRank` |
| PlatformOrder.Sort | src/utils/calculations.ts:100-120 | The sorted list is a permutation of the input (same length, same multiset), and no "Standart" comes after another name |
| PlatformOrder.Insert | src/utils/calculations.ts:100-120 | Inserting adds exactly the one element |
| PlatformOrder.InsertKeepsStandartFirst | src/utils/calculations.ts:101-103 | Inserting into a list with every "Standart" in front keeps them in front |
| PlatformOrder.StandartComesFirst | src/utils/calculations.ts:101-103 | If any scenario is named "Standart", the sorted list starts with one |
| PlatformOrder.CompareFollowsRank | src/utils/calculations.ts:100-116 | Between "Standart"/"Senaryo N" names, the comparator puts a scenario after another exactly when its rank is higher |
| PlatformOrder.InsertAbove | src/utils/calculations.ts:100-120 | Inserting an element ranked no lower than y among elements ranked no lower than y keeps every element at or above y |
| PlatformOrder.ConsSorted | src/utils/calculations.ts:100-120 | Prefixing a rank-sorted list with an element ranked no higher than all of it keeps it rank-sorted |
| PlatformOrder.SortedHead | src/utils/calculations.ts:100-120 | The head of a rank-sorted list is ranked lowest, and its tail is rank-sorted |
| PlatformOrder.InsertKeepsRankOrder | src/utils/calculations.ts:100-120 | Inserting a ranked element into a rank-sorted list keeps it rank-sorted |
| PlatformOrder.SortKeepsRankOrder | src/utils/calculations.ts:100-120 | Sorting a list of ranked names gives a rank-sorted list |
| PlatformOrder.SortOrdersScenarios | src/utils/calculations.ts:100-120 | When every name is "Standart" or holds "Senaryo N", the sorted names have non-decreasing rank: "Standart" first, then ascending N |
| PlatformOrder.SortGuarantees | src/utils/calculations.ts:100-120 | Both promises of the order together: "Standart" first when present, and ascending rank among ranked names |
| PlatformOrder.Names | src/utils/calculations.ts:122-124 | The names of a scenario list, in order |
| ScenarioNames.NumberFrom | src/utils/calculations.ts:106-109 | A number is found only where "Senaryo " plus a digit still fits in the text. A match at the search start is taken, with the value of its greedy digit run. The full leftmost-match account is `ScenarioNames.NumberFromIsLeftmostMatch` |
| ScenarioNames.ScenarioNumber | src/utils/calculations.ts:106-109 | A name no longer than "Senaryo " has no scenario number. A generated name reads back as its number (`ScenarioNames.ScenarioNameRoundTrip`) |
| ScenarioNames.NumberFromIsLeftmostMatch | src/utils/calculations.ts:106-109 | The number read from a name is absent exactly when "Senaryo " followed by a digit occurs nowhere. Otherwise it is the value of the greedy digit run at the leftmost occurrence |
| ScenarioNames.Captured | src/utils/calculations.ts:107-108 | The captured group of a match is a non-empty run of digits |
| ScenarioNames.ScenarioName | src/components/InputForm.tsx:137-140 | A written scenario name starts with "Senaryo " |
| ScenarioNames.ScenarioNameRoundTrip | src/components/InputForm.tsx:124-141 | The number written into "Senaryo ${n}" is the number read back out of it |
| ServerCalculations.PureGoldGram | server/calculations.js:3-6 | Pure-gold grams are (labour millem + 0.585) × weight, with a missing or zero labour millem counted as 0 and no laser term. With non-negative weight and millem they are at least 0.585 × weight |
| ServerCalculations.Profit | server/calculations.js:16-47 | The server's breakdown: missing fees count as 0, and the extra chain is not among the expenses. Net profit is price less purchase, expenses and commission. The deposit is price less commission, shipping and tax. The profit rate is finite exactly for a non-zero price |
| ServerCalculations.AllPlatforms | server/calculations.js:49-61 | The same ordering guarantees as the client: a permutation, "Standart" first, ascending "Senaryo N" |
| ServerCalculations.StandardSalePrice | server/calculations.js:63-73 | Always a whole number: the exact price rounded up, or, with no positive denominator, weight × gold price × 1.2 rounded up |
| ServerCalculations.ResultNames | server/calculations.js:60 | The names of the server's results, in order |
| ServerCalculations.LaserAndLaborIgnored | server/calculations.js:3-6 | The laser fields never change a breakdown or a price, and a missing labour millem acts as 0 |
| ServerCalculations.MissingExpensesAreZero | server/calculations.js:25-30 | A missing shipping, packaging, service fee or special packaging acts as 0 in both the breakdown and the solver, and the extra chain never matters |
| ServerCalculations.TaxRateFallback | server/calculations.js:22 | A missing or zero tax rate acts as 1.0, in the breakdown and in the solver |
| ServerCalculations.ServerMatchesClient | server/calculations.js:16-73 | With laser cutting off and no extra chain, the server's breakdown equals the client's field by field, with the deposit under its other name. The solvers agree for a positive denominator; otherwise the server's price is the client's fallback rounded up |
| Scenarios.FirstIndex | src/components/ProfitCalculator.tsx:190 | `findIndex` by name: -1 exactly when the name is absent, else the first position holding it |
| Scenarios.FirstIndexOfSameNames | src/components/ProfitCalculator.tsx:190 | Lists with the same names in the same places find every name at the same position |
| Scenarios.MaxNumber | src/components/InputForm.tsx:126-135 | The largest scenario number in use (0 counts for names without one), and it is attained |
| Scenarios.NextNumber | src/components/InputForm.tsx:133-135 | The next number is at least 1 and above every number in use. It is 1 or one more than a number in use |
| Scenarios.NextNameIsFresh | src/components/InputForm.tsx:124-141 | "Senaryo k" with the next number is not the name of any existing scenario |
| Scenarios.RemoveAt | src/components/InputForm.tsx:143-151 | `filter((_, i) => i !== index)`: for an index in range, one entry shorter, the same entries less the removed one, and every later entry one place earlier. Out of range, the same list |
| Scenarios.RemoveAtKeepsOthers | src/components/InputForm.tsx:143-151 | Every entry but the removed one is still there, at the same place or one earlier |
| Scenarios.ApplyRates | src/components/ProfitCalculator.tsx:169-173 | Every "Standart" gets the commission and the standard target, and every "Astarlı Ürün" the commission and the lined target (when there is one). Names and prices stay, and every other scenario is untouched |
| Scenarios.ApplyRatesIdempotent | src/components/ProfitCalculator.tsx:169-173 | Writing the same rates twice is writing them once |
| Scenarios.Repriced | src/components/ProfitCalculator.tsx:192-205 | A re-priced scenario keeps its name and commission and is no longer stale (off by more than 0.01) |
| Scenarios.RepricedList | src/components/ProfitCalculator.tsx:184-211 | The re-priced list has the same length, names and commissions as before |
| Scenarios.RepricedListSnoc | src/components/ProfitCalculator.tsx:189-208 | Re-pricing one more automatic name is one more turn of the `forEach` |
| Scenarios.RepricedListKeepsOthers | src/components/ProfitCalculator.tsx:184-211 | Every entry that is not the first of an automatic name is left exactly as it was |
| Scenarios.RepricedListUnchanged | src/components/ProfitCalculator.tsx:184-211 | When no automatic scenario is stale, the list is unchanged |
| Scenarios.RepriceOne | src/components/ProfitCalculator.tsx:189-207 | One turn of the loop. The working array is allocated fresh exactly when the first price must change; after the turn it holds the specification's step applied to its old contents (or to the previous list when newly made) |
| Scenarios.RepriceAutos | src/components/ProfitCalculator.tsx:184-211 | The effect's updater returns the specified re-priced list. It copies exactly when some automatic scenario is stale, and otherwise hands back the same list |
| Scenarios.RepricedEntry | src/components/ProfitCalculator.tsx:192-205 | With distinct automatic names, the first entry of each automatic name ends up exactly re-priced: solved price and stored target when stale, otherwise as it was |
| Scenarios.RepriceIdempotent | src/components/ProfitCalculator.tsx:184-211 | After a re-pricing no automatic scenario is stale, so a second re-pricing changes nothing |
| Scenarios.Edited | src/components/InputForm.tsx:118-122 | `{ ...platform, [field]: value }`: exactly the named field takes the value, and the others are kept |
| Scenarios.AutoEdited | src/components/SilverInputForm.tsx:114-137 | An edit of an automatic scenario's target also sets the solved price and keeps name and commission. Any other edit is the plain one-field edit |
| Scenarios.UpdateAutoPlatform | src/components/SilverInputForm.tsx:114-137 | A copy with the entry at the index edited as above, every other entry the same |
| Scenarios.AddPricedScenario | src/components/SilverInputForm.tsx:139-157 | A fresh "Senaryo k" (k the next number) is appended with the given commission and no target; earlier entries are kept. Its price is the first "Standart" price rounded, or the rounded fallback without one |
| Scenarios.RemoveOrReset | src/components/SilverInputForm.tsx:174-183 | The list is never empty. Removing the only entry, or removing from an empty list, gives the reset scenario alone. Otherwise it is `RemoveAt` |
| ProfitCalculator.DefaultPlatforms | src/components/ProfitCalculator.tsx:34-37 | "Standart" (22, target 15) and "Astarlı Ürün" (22, target 30), both priced at weight × gold price × 1.2 |
| ProfitCalculator.InitialPlatforms | src/components/ProfitCalculator.tsx:79-105 | The restored list always holds "Standart" and "Astarlı Ürün". A saved list with both is kept as it is. One with "Standart" only gets the default "Astarlı Ürün" (22, target 30, saved weight × saved price × 1.2) appended. A saved list without "Standart" gives the two defaults at the saved weight and price, and no saved list gives them at the default weight and price |
| ProfitCalculator.SettingsExpenses | src/components/ProfitCalculator.tsx:168 | Shipping, packaging, service fee and tax rate come from the settings. Special packaging becomes the default extra cost when it was positive and 0 otherwise. Everything else is kept |
| ProfitCalculator.SettingsExpensesIdempotent | src/components/ProfitCalculator.tsx:168 | Applying the expenses twice is applying them once, unless the default extra cost is negative, when the second application drops it to 0 |
| ProfitCalculator.ApplySettings | src/components/ProfitCalculator.tsx:165-174 | Weight, labour and gold price from the settings, the expenses as above, and only the rates of "Standart" and "Astarlı Ürün" |
| ProfitCalculator.ApplySettingsIdempotent | src/components/ProfitCalculator.tsx:176-181 | Saving the same settings twice with "apply" equals once (with a non-negative extra cost). The negative case is exhibited |
| ProfitCalculator.RefreshAutoPrices | src/components/ProfitCalculator.tsx:184-211 | The gold effect (commission `|| 22`, target `?? 15` / `?? 30`) returns the specified re-priced list. It copies exactly when a price is stale, else it returns the same list |
| ProfitCalculator.RepricedScenarioMeetsTarget | src/components/ProfitCalculator.tsx:192-205 | A scenario the gold refresh re-priced reaches its stored target profit rate, given a positive denominator and positive costs |
| ProfitCalculator.BestIndex | src/components/ProfitCalculator.tsx:338-340 | The position the `reduce` ends on is in range |
| ProfitCalculator.BestScenario | src/components/ProfitCalculator.tsx:338-340 | None exactly for no results; otherwise one of the results |
| ProfitCalculator.BestIsEarliestMaximum | src/components/ProfitCalculator.tsx:338-340 | With no NaN rate, no result has a higher profit rate than the best, and every earlier result has a strictly lower one |
| ProfitCalculator.DeleteSaved | src/components/ProfitCalculator.tsx:281-286 | Exactly the entries without the id remain |
| ProfitCalculator.DeleteSavedAppend | src/components/ProfitCalculator.tsx:281-286 | Deletion works entry by entry, so the kept entries keep their order |
| ProfitCalculator.ConfirmSave | src/components/ProfitCalculator.tsx:294-309 | Nothing changes when the dialog is closed, has no result, or the trimmed name is blank. Otherwise one entry goes in front (trimmed name, the one result, the clock as id and creation time) and the dialog resets |
| ProfitCalculator.Moved | src/components/ProfitCalculator.tsx:326-335 | The moved entry lands at the target. Entries outside the span stay, and those in between shift one place toward the source |
| ProfitCalculator.MovedIsPermutation | src/components/ProfitCalculator.tsx:326-335 | Moving keeps the same entries |
| ProfitCalculator.MoveBackRestores | src/components/ProfitCalculator.tsx:326-335 | Moving back restores the list |
| ProfitCalculator.ShiftDown | src/components/ProfitCalculator.tsx:329 | The array splice's downward shift: entries after the source move one place down up to the target, and others stay |
| ProfitCalculator.ShiftUp | src/components/ProfitCalculator.tsx:330 | The array splice's upward shift: entries from the target up to the source move one place up, and others stay |
| ProfitCalculator.DropSaved | src/components/ProfitCalculator.tsx:326-335 | No drag or a drop on itself changes nothing; otherwise the result is the dragged entry moved to the drop position |
| InputForm.DefaultSalePrice | src/components/InputForm.tsx:21-24 | Twice the amount to the nearest whole number, a half rounding up |
| InputForm.AddPlatform | src/components/InputForm.tsx:124-141 | A fresh "Senaryo k" (k = 1 + the largest number in use, or 1) is appended with commission 22, the default price and no target. Existing entries are unchanged |
| InputForm.RemovePlatform | src/components/InputForm.tsx:143-151 | A "Standart" entry or the only entry is never removed. Otherwise exactly the entry at the index goes and the order is kept. The list never empties and every "Standart" stays |
| InputForm.UpdatePlatform | src/components/InputForm.tsx:118-122 | Only the entry at the index changes, and only in the named field |
| InputForm.ToggleSpecialPackaging | src/components/InputForm.tsx:103-116 | Any non-zero amount switches to 0. Zero switches to the stored default extra cost, or to 150 when it is missing, not a number or unreadable |
| InputForm.ToggleTwice | src/components/InputForm.tsx:103-116 | Two presses turn a charged packaging into the default, and turn an uncharged one back off. With a stored default of 0 the switch cannot turn it on |
| InputForm.GramPatternAccepts | src/components/InputForm.tsx:169 | Digits, and digits + separator + digits, match `^(\d+)?([.,]\d*)?$` |
| InputForm.GramPatternSplits | src/components/InputForm.tsx:169 | Every match is digits, or digits + one dot/comma + digits |
| InputForm.GramReading | src/components/InputForm.tsx:163-183 | Empty text reads as 0 |
| InputForm.GramInput | src/components/InputForm.tsx:163-183 | The text is taken exactly when the normalised text matches. Refused text leaves the weight unchanged, and "" sets 0 |
| InputForm.GramInputWhole | src/components/InputForm.tsx:163-183 | A run of digits is taken as its value |
| InputForm.GramInputDecimal | src/components/InputForm.tsx:163-183 | Digits with a decimal comma or point read as whole part plus fraction, and "," or "." alone gives 0 |
| InputForm.GramInputRefuses | src/components/InputForm.tsx:163-183 | Any character other than a digit, comma or dot makes the field refuse the text and keep the weight |
| InputForm.SilverGramInput | src/components/SilverInputForm.tsx:197-213 | The silver field takes the same texts, and stores the weight unchanged or as the gold reading rounded to three decimals |
| InputForm.SilverGramAgrees | src/components/SilverInputForm.tsx:197-213 | When the reading already has at most three decimals, silver and gold fields store the same weight |
| InputForm.RoundWeight | src/components/InputForm.tsx:202 | `toFixed(3)` / `Math.round(x·1000)/1000` give at most three decimals, within 0.0005 of the exact weight |
| InputForm.PressLength | src/components/InputForm.tsx:197-222 | The pressed button becomes active, or the active one goes back to no chain. The weight loses the old extra and gains the new one (0.10 for 50 cm, 0.30 for 60 cm), rounded to three decimals |
| InputForm.PressTwiceRestores | src/components/InputForm.tsx:197-222 | Pressing the same button twice restores a three-decimal weight exactly, with no chain selected |
| InputForm.GramField.constructor | src/components/InputForm.tsx:43-45 | The field starts with no chain and no typed text |
| InputForm.GramField.Typed | src/components/InputForm.tsx:163-183 | The form's reading: refused text leaves the weight |
| InputForm.GramField.Input | src/components/InputForm.tsx:163-183 | Accepted text is stored, clears the chain selection and sets the weight. Refused text changes nothing |
| InputForm.GramField.Blur | src/components/InputForm.tsx:184-187 | Leaving the field clears the typed text only |
| InputForm.GramField.Press | src/components/InputForm.tsx:197-222 | A button press sets weight and selection as `PressLength` says and clears the typed text |
| InputForm.CleanedPrice | src/components/InputForm.tsx:243 | The cleaned text holds only digits, dots, commas and minus signs |
| InputForm.GoldPriceInput | src/components/InputForm.tsx:240-256 | The text is taken exactly when it is empty or, with its dots removed, matches `/^(\d+)([.,]\d{0,2})?$/`. Refused text leaves the price unchanged, a changed price is never negative, and "" sets 0 |
| InputForm.PricePatternChars | src/components/InputForm.tsx:246 | A text matching the price pattern holds only digits, dots and commas |
| InputForm.GoldPriceRefuses | src/components/InputForm.tsx:246 | Any character other than a digit, a comma or a dot (a letter, a space, a minus sign) makes the field refuse the text and keep the price |
| InputForm.GoldPriceWhole | src/components/InputForm.tsx:240-256 | Digits with dots as thousands separators read as the whole number they form |
| InputForm.GoldPriceDecimal | src/components/InputForm.tsx:240-256 | "2.950,75"-style text reads as whole part plus the (at most two) decimals |
| InputForm.GoldPriceRefusesThreeDecimals | src/components/InputForm.tsx:246 | A third decimal makes the field refuse the text |
| InputForm.CleanedKeeps | src/components/InputForm.tsx:243 | When the dot-free text has price characters only, the clean-up keeps all of it |
| InputForm.PricePatternComma | src/components/InputForm.tsx:243-246 | Digits, a comma and at most two digits match the price pattern, and the comma becomes a decimal point |
| SilverCalculator.DefaultSilverPlatforms | src/components/SilverCalculator.tsx:38-40 | A single "Standart" (22, target 15) priced at weight × silver price × 1.2 rounded to a whole number |
| SilverCalculator.InitialSilverPlatforms | src/components/SilverCalculator.tsx:92-106 | The restored list always holds "Standart". A saved list with it is kept; otherwise the default list from the saved (or default) weight and price |
| SilverCalculator.InitialSilverInfo | src/components/SilverCalculator.tsx:80-87 | Each stored field wins over its default (100, 35, 74, 91.5); without a stored record, the defaults |
| SilverCalculator.StoredSilverInfoRoundTrip | src/components/SilverCalculator.tsx:80-87 | A complete stored record is restored unchanged |
| SilverCalculator.ApplySilverSettings | src/components/SilverCalculator.tsx:162-171 | Weight from the settings, labour `|| 0.50` and silver price `|| 100` (never 0), the expenses as in the gold calculator, and only the automatic scenarios' rates |
| SilverCalculator.ApplySilverSettingsIdempotent | src/components/SilverCalculator.tsx:173-178 | Saving the same settings twice with "apply" equals once, for a non-negative extra cost |
| SilverCalculator.SilverAutos | src/components/SilverCalculator.tsx:200 | The automatic names are distinct |
| SilverCalculator.RefreshSilverPrices | src/components/SilverCalculator.tsx:195-222 | The silver effect (commission `|| 22`, targets `??` the settings) returns the specified re-priced list, copying exactly when a price is stale |
| SilverCalculator.SilverRefreshIdempotent | src/components/SilverCalculator.tsx:195-222 | Refreshing twice is refreshing once |
| SilverCalculator.MergeSilverResults | src/components/SilverCalculator.tsx:250-258 | The server's results keep their length and order and change only in the optimum score. That is the same-named local result's score when it has one, else the server's. With no server results, the local ones |
| SilverCalculator.MergeSilverWithSelf | src/components/SilverCalculator.tsx:250-258 | Merging distinct-named results with themselves gives them back |
| SilverInputForm.SilverUpdatePlatform | src/components/SilverInputForm.tsx:114-137 | Only the entry at the index changes. A new target on "Standart" or "Astarlı Ürün" also sets the solved price at commission `|| 22` |
| SilverInputForm.SilverAddPlatform | src/components/SilverInputForm.tsx:139-157 | The list is kept and one entry is appended: "Senaryo k" with k one above the largest scenario number present (a name not yet in the list), commission 22 and no target. Its price is the first "Standart" price rounded with `Math.round`, or, without "Standart", the default sale price |
| SilverInputForm.AddLinedProduct | src/components/SilverInputForm.tsx:159-172 | Afterwards an "Astarlı Ürün" exists. It is a no-op when one did; otherwise exactly one (22, target 20, solved price) is appended |
| SilverInputForm.AddLinedProductOnce | src/components/SilverInputForm.tsx:159-172 | A second press adds nothing, and the added entry is not stale for the re-pricing |
| SilverInputForm.SilverRemovePlatform | src/components/SilverInputForm.tsx:174-183 | Any entry, "Standart" included, can go, and the list is never empty. With more than one entry, exactly the entry at that index goes and the others keep their order. An index out of range changes nothing. Removing the last one gives a single "Standart" (22, target 30, default price) |
| SilverInputForm.ExtraCostInput | src/components/SilverInputForm.tsx:261-271 | A cleaned "" or "." sets 0. Any other new value comes from a digit in the text |
| SilverInputForm.CleanedHasDigit | src/components/SilverInputForm.tsx:262 | A digit surviving the clean-up was typed |
| SilverInputForm.ExtraCostBlur | src/components/SilverInputForm.tsx:272-277 | Leaving the field sets 0 for a cleaned "" or "." and otherwise changes nothing |
| SilverInputForm.ExtraCostBlurAfterInput | src/components/SilverInputForm.tsx:261-277 | Leaving the field after typing changes nothing more |
| SilverInputForm.ExtraCostWhole | src/components/SilverInputForm.tsx:261-271 | Digits with dots anywhere read as the whole number they form |
| SilverInputForm.ExtraCostDecimal | src/components/SilverInputForm.tsx:261-271 | With dots as thousands separators, a decimal comma reads as whole part plus fraction, with any number of decimals: "1.250,5" sets 1250.5 |
| SilverInputForm.ExtraCostDropsOthers | src/components/SilverInputForm.tsx:261-271 | Characters other than digits, commas, dots and minus signs are dropped: "150 TL" sets 150 |
| SilverInputForm.ExtraCostNegative | src/components/SilverInputForm.tsx:261-271 | A minus sign survives the clean-up: "-150" sets −150 |
| WholesaleCalculator.DefaultWholesalePrice | src/components/WholesaleCalculator.tsx:22-24 | Weight × gold price × 1.07 to the nearest whole number |
| WholesaleCalculator.DefaultWholesalePlatforms | src/components/WholesaleCalculator.tsx:22-24 | A single "Standart" with commission 2, target 5 and that price |
| WholesaleCalculator.InitialWholesalePlatforms | src/components/WholesaleCalculator.tsx:74-84 | The restored list always holds "Standart": a saved list with it is kept, otherwise the defaults (100 g at 5900 without a saved list) |
| WholesaleCalculator.RefreshWholesalePrices | src/components/WholesaleCalculator.tsx:123-148 | Only "Standart" is re-priced (commission `|| 2`, target `?? 5`), copying exactly when its price is stale |
| WholesaleCalculator.WholesaleRefreshIdempotent | src/components/WholesaleCalculator.tsx:123-148 | After a refresh "Standart" is not stale, and refreshing again changes nothing |
| WholesaleCalculator.ApplyWholesaleSettings | src/components/WholesaleCalculator.tsx:211-223 | Without "apply" nothing changes. With it: the gold price from the settings, both expenses 0, and every "Standart" at commission 2 and target 5 |
| WholesaleCalculator.ApplyWholesaleSettingsIdempotent | src/components/WholesaleCalculator.tsx:211-223 | Applying twice equals once, and no scenario but "Standart" changes |
| WholesaleCalculator.WholesaleUpdatePlatform | src/components/WholesaleCalculator.tsx:233-255 | Only the entry at the index changes. A new target on "Standart" also sets the solved price at commission `|| 2` |
| WholesaleCalculator.WholesaleAddPlatform | src/components/WholesaleCalculator.tsx:257-275 | The list is kept and one entry is appended: "Senaryo k" with k one above the largest scenario number present (a name not yet in the list), commission 2 and no target. Its price is the first "Standart" price rounded with `Math.round`, or, without "Standart", the default wholesale price |
| WholesaleCalculator.WholesaleRemovePlatform | src/components/WholesaleCalculator.tsx:277-286 | The list is never empty: removing the last entry gives the default "Standart". With more than one entry, exactly the entry at that index goes and the others keep their order. An index out of range changes nothing |
| WholesaleCalculator.ConvertToProfitResult | src/components/WholesaleCalculator.tsx:289-293 | The bank deposit is price less commission, and the name and purchase price are carried |
| WholesaleCalculator.ConvertRoundTrip | src/components/WholesaleCalculator.tsx:289-293 | The conversion loses no field of the wholesale result |
| WholesaleCalculator.MergeWholesaleResults | src/components/WholesaleCalculator.tsx:175-182 | The server's results keep their length and order and change only in the optimum score, taken from the same-named local result when it has one. With no server results, the local ones |
| WholesaleCalculator.MergeWholesaleWithSelf | src/components/WholesaleCalculator.tsx:175-182 | Merging distinct-named results with themselves gives them back |
| ResultMerge.FindIndex | src/components/WholesaleCalculator.tsx:176 | `find` by name: -1 exactly when no result has the name, else the first one that does |
| ResultMerge.MergedScore | src/components/WholesaleCalculator.tsx:177-180 | The merged score is the server's or a same-named local result's, and is absent only when the server's is |
| ResultMerge.FindIndexOfDistinct | src/components/WholesaleCalculator.tsx:176 | With distinct names, `find` by an entry's name finds that entry |
| ResultMerge.MergedScoreOfSelf | src/components/WholesaleCalculator.tsx:177-180 | Merging a distinct-named list with itself keeps every score |
| JsNumber.Ceil | src/utils/calculations.ts:175 | `Math.ceil`: the least whole number at or above x |
| JsNumber.Round | src/components/InputForm.tsx:23 | `Math.round`: the whole number within a half below or at a half above |
| JsNumber.Round3 | src/components/SilverInputForm.tsx:208 | `Math.round(x·1000)/1000`: three decimals, x − 0.0005 < r ≤ x + 0.0005 |
| JsNumber.ToFixed3 | src/components/InputForm.tsx:202 | `parseFloat(x.toFixed(3))`: three decimals within 0.0005, the same as Round3 for non-negative x |
| JsNumber.Round3OfThousandths | src/components/SilverInputForm.tsx:208 | Rounding a three-decimal number to three decimals changes nothing |
| JsNumber.ToFixed3OfThousandths | src/components/InputForm.tsx:202 | The same for `toFixed(3)` |
| JsNumber.ThousandthsSum | src/components/InputForm.tsx:201-202 | Sums and differences of three-decimal numbers have three decimals |
| JsNumber.Or | src/utils/calculations.ts:57 | `x || d` on numbers: x unless it is 0 |
| JsNumber.Percent | src/utils/calculations.ts:76 | `(a / b) * 100`: finite exactly when b ≠ 0 (then r·b = 100a), NaN for 0/0, +Infinity for a positive a over 0 |
| JsNumber.GreaterIsStrictOrder | src/components/ProfitCalculator.tsx:339 | JavaScript's `>` on numbers is irreflexive, asymmetric and transitive, and total away from NaN |
| JsText.ParseFloat | src/components/InputForm.tsx:177 | A number is found only if the text has a digit, and a text starting with a digit always reads as a non-negative number |
| JsText.ParseWhole | src/components/InputForm.tsx:177 | `parseFloat` of a run of digits is its value |
| JsText.ParsePointed | src/components/InputForm.tsx:177 | `parseFloat` of digits, a point and digits is whole part plus fraction |
| JsText.ParseNegativeWhole | src/components/SilverInputForm.tsx:266 | `parseFloat` of a minus sign and digits is the negated value |
| JsText.ReplaceFirst | src/components/InputForm.tsx:166 | `replace(',', '.')` with a string pattern replaces only the first occurrence |
| JsText.Filter | src/components/InputForm.tsx:243 | A global character-class `replace` keeps exactly the wanted characters and no others; it distributes over concatenation (`JsText.FilterAppend`) |
| JsText.FilterAppend | src/components/InputForm.tsx:243 | Filtering a concatenation is concatenating the filtered parts |
| JsText.FilterCommutes | src/components/InputForm.tsx:243 | The two global removals can be done in either order |
| JsText.Trim | src/components/ProfitCalculator.tsx:295 | `trim()` drops exactly the leading and trailing white space; the result is empty exactly for blank text |
| JsText.DecimalRoundTrip | src/components/ProfitCalculator.tsx:297 | A number written in decimal reads back as itself |

## Left out

- Browser storage, `JSON.parse`, the clock, `fetch` and the server routes (`server/index.js`, `src/utils/api.ts`) are not modelled. Stored values and clock readings are parameters of the operations that use them.
- ServerCalculations.StandardSalePrice: the default arguments of `calculateStandardSalePrice` (commission 22, target 15, server/calculations.js:63) are not modelled. They apply only to callers that omit those arguments, which are the server routes. The model takes both rates explicitly.
- React scheduling is not modelled: `useEffect` ordering and the re-renders that recompute pure-gold grams, product amount and purchase price from the inputs.
- Floating point is not modelled. Amounts are exact reals, so binary drift, signed zero and the precise IEEE behaviour of `toFixed` on values such as 1.0005 are not captured.
- Scenarios.Edited: edits carry numbers only. The forms can also store the raw string of a text field, or NaN when `parseFloat` fails on a target, and those values are not modelled.
- JsText.ParseFloat: it reads only texts over digits, '.', ',', '+' and '-'. Exponents, "Infinity" and leading white space never reach it in the parsers modelled.
- ScenarioNames.NumberFrom: `parseInt` of a very long digit run loses precision in JavaScript; here it is exact.
- The display order for names that are neither "Standart" nor "Senaryo N" is not modelled. It uses `localeCompare`, a parameter here, and the comparator can then be inconsistent, so nothing beyond `PlatformOrder.SortGuarantees` is promised. The sort is modelled as a stable insertion sort.
- The silver and wholesale pricing functions (`calculateSilverStandardSalePrice`, `calculateAllSilverPlatforms`, `calculateWholesaleStandardSalePrice`, `calculateAllWholesalePlatforms`) are not part of this model. Solvers come in as parameters, and local results as given lists. Silver results are represented with the retail result record.
- The optimum score formula is not part of this model, as no file shown computes it.
- ProfitCalculator.DropSaved, InputForm.RemovePlatform, InputForm.UpdatePlatform, SilverInputForm.SilverUpdatePlatform and WholesaleCalculator.WholesaleUpdatePlatform require an index in range. The forms only pass indices of rendered rows. An out-of-range index in the silver and wholesale `updatePlatform` reads `platform.name` of `undefined` and throws a TypeError (src/components/SilverInputForm.tsx:116-117, src/components/WholesaleCalculator.tsx:235-236); the model does not cover that error.
- The silver calculator applies its stored settings once on mount. This is `SilverCalculator.ApplySilverSettings` with the stored settings; the once-only flag is not modelled.
- The silver form's special packaging switch is `InputForm.ToggleSpecialPackaging` read from the silver settings key, and is not modelled separately.
- The silver calculator's identity `convertToProfitResult` is not modelled.
- Rendering, toasts, the clipboard, keyboard shortcuts, the rate cards, the settings and preset dialogs, the results table and `src/utils/format.ts` are not modelled.
- ProfitCalculator.ConfirmSave: the id is the decimal text of the clock reading, and two clock readings are two parameters. The asynchronous upload of the entry is not modelled.
