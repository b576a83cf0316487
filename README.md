# Lead-capture core, modelled in Dafny

This project models the sequential logic of a real-estate lead-capture service.
It has three parts.

- **Home-value estimator.** app.py and valuation.py each have one.
  The estimator looks up a price per square foot (ppsf) by ZIP code and uses 220 when the ZIP is unknown.
  It takes the square footage, uses 1800 when it is missing or 0, and never goes below 600.
  It adds one bedroom tier (+0.02, +0.05 or +0.08) and one bathroom tier (+0.03 or +0.05) to a factor of 1.
  It rounds the product and gives a range of 93% to 107% of the estimate, truncated.
  valuation.py also loads its ZIP table from a CSV of comparable sales.
- **Leads** in app.py. Each lead gets a priority score, a sum of fixed points, at most 105.
  The listing filters leads by role, stage and a case-insensitive search.
  It orders them by score and then creation time, both descending.
  The patch endpoint overwrites the given fields, stamps the record and recomputes its score.
- **Admin console** in admin_gui.py. The console sends an `X-Admin-Key` header only for admin calls, and only when a key is stored.
  Its "Validate JSON" button counts the bulk-import rows that have a five-digit ZIP (after trimming) and a positive rate.
  A rate that is not a number makes the whole check fail.

Modules:

| module | file | models |
|---|---|---|
| `Wrappers` | wrappers.dfy | `Option` (Python `None`) and `Result` (raised exceptions) |
| `PyStrings` | py_strings.dfy | the Python string builtins used: truthiness, `lower`, `in`, `join`, `strip`, `isdigit` |
| `AppValuation` | app_valuation.dfy | `PG_PPSF`, `DEFAULT_PPSF`, `estimate_value` of app.py |
| `AppLeads` | app_leads.dfy | the `Lead` record, `compute_score`, `list_leads` |
| `AppLeadUpdate` | app_lead_update.dfy | the attribute patch and re-scoring of `update_lead` |
| `Valuation` | valuation.dfy | `load_zip_ppsqft` and `estimate_value` of valuation.py |
| `AdminGui` | admin_gui.dfy | `api_headers` and the bulk "Validate JSON" count |

Some numbers are exact rationals (`real`): prices per square foot and bathroom counts.
The adjustment factor is an integer in hundredths, so 1.13 is `113`.
`round` is round-half-to-even on the exact value.
`int(est * 0.93)` is truncation toward zero of `est * 93 / 100`.
Python's `float()` on CSV text is outside the model, so the loader takes it as a function parameter `parse`.
The JSON decoding behind the admin check is outside too: the check takes the decoded items.
Neither estimator has a county multiplier, a condition adjustment or a variable band.
admin_gui.py sends `county` and `condition`, but app.py's valuation endpoint forwards only ZIP, beds, baths and square footage.
The model follows the code.
The role compared in the score is the lower-case `"seller"`, as in the code.

## Model

| member | source | states |
|---|---|---|
| `AppValuation.PpsfFor` | app.py:58 | `PG_PPSF.get(zip or "", DEFAULT_PPSF)` over a given table: the rate used is the default 220 or one of the table's rates; `PpsfLookup` says which |
| `AppValuation.PpsfLookup` | app.py:58 | with no empty-string key in the table, the ppsf is the table's value for a known ZIP, and 220 for an unknown or missing ZIP |
| `AppValuation.SqftUsed` | app.py:59 | `max(600, sqft or 1800)`: 1800 when the square footage is missing or 0, exactly 600 for a given size below 600 (negative ones included), and the given size itself from 600 up |
| `AppValuation.BedsIncrement` | app.py:61-62 | the bedroom increment is one of 0, 0.02, 0.05, 0.08 |
| `AppValuation.BathsIncrement` | app.py:63-64 | the bathroom increment is one of 0, 0.03, 0.05 |
| `AppValuation.BedsTiers` | app.py:61-62 | each bedroom tier applies exactly for its own bedroom counts (5 and up, 4, 3, otherwise none) |
| `AppValuation.BathsTiers` | app.py:63-64 | each bathroom tier applies exactly for its own bathroom range (3 and up, 2 to 3, otherwise none) |
| `AppValuation.BedsMonotone` | app.py:62 | more bedrooms never give a smaller increment; a missing count acts like 0 |
| `AppValuation.BathsMonotone` | app.py:64 | more bathrooms never give a smaller increment; a missing count acts like 0 |
| `AppValuation.Adjustment` | app.py:60-64 | the factor is 1 plus exactly one bedroom and one bathroom increment, so it lies in [1.00, 1.13] |
| `AppValuation.RoundHalfEven` | app.py:65 | `round`: the result is within 0.5 of the value, a tie goes to the even integer, and a non-negative value gives a non-negative result |
| `AppValuation.TruncPercent` | app.py:66 | `int(n * p/100)` truncates toward zero: 0 ≤ r ≤ n·p/100 < r+1 for n ≥ 0, and r−1 < n·p/100 ≤ r ≤ 0 for n < 0 |
| `AppValuation.Range` | app.py:66 | low and high are the truncations toward zero of 93% and 107% of the estimate (`int(est*0.93)`, `int(est*1.07)`), stated by bounds for each sign; a non-negative estimate lies between them, both non-negative, and for a negative one the order flips |
| `AppValuation.ExactValue` | app.py:65 | definition of the unrounded `ppsf * sqft * adj` on exact rationals, with the factor in hundredths; `ExactValueNonNegative` states its sign |
| `AppValuation.Priced` | app.py:65-66 | the record keeps the rate, size and factor it was given, its estimate is the half-to-even rounding of their exact product, low and high are `Range` of the estimate, and non-negative inputs give a non-negative estimate |
| `AppValuation.EstimateFrom` | app.py:57-66 | the estimate is within 0.5 of ppsf × sqft × factor, sqft is at least 600, the factor is in [1.00, 1.13], low ≤ estimate ≤ high when the estimate is non-negative, and a non-negative ppsf gives a non-negative estimate |
| `AppValuation.EstimateFromParts` | app.py:57-66 | the record's size is `SqftUsed` of the request, its factor is `Adjustment` of the bedrooms and bathrooms, its estimate is the rounded exact value of those, and low and high are `Range` of the estimate |
| `AppValuation.PgRatesInRange` | app.py:47-54 | every rate in the county table is between 235 and 280 |
| `AppValuation.EstimateValue` | app.py:46-66 | over `PG_PPSF`: the ppsf is `PG_PPSF[zip]` for a listed ZIP and 220 otherwise, including a missing ZIP, and 0 ≤ low ≤ estimate ≤ high always |
| `AppValuation.EmptyRequest` | app.py:57-66 | with no inputs the estimate is 396000, the range is 368280 to 423720, sqft is 1800 and ppsf is 220 |
| `AppValuation.TopTiers` | app.py:57-66 | ZIP 20774 with 5 beds, 3 baths and 2000 sq ft: ppsf 268, factor 1.13, estimate 605680 |
| `AppValuation.SmallHouse` | app.py:59 | 100 sq ft is priced as 600 sq ft |
| `Valuation.PriceOf` | valuation.py:13 | a missing or empty price cell is 0; any other text is what `float` makes of it |
| `Valuation.Stores` | valuation.py:13-15 | definition: the row writes `data[z]`, its price cell converting and its ZIP neither missing nor empty; `LoadStep` and `LoadedKeys` state its effect |
| `Valuation.LoadStep` | valuation.py:11-17 | one pass of the loop: a row that stores writes its price under its ZIP; no entry is lost, a new key is only a ZIP the row stores under, every entry the row does not store keeps its price, and at most one key is added |
| `Valuation.Loaded` | valuation.py:10-17 | the table after the loop as a left fold of `LoadStep`; it has at most one key per row (`LoadedKeys` and `LastRowWins` give its contents) |
| `Valuation.LoadedKeys` | valuation.py:10-15 | a ZIP is a key of the loaded table exactly when some row has that non-empty ZIP and a price that parses |
| `Valuation.LastRowWins` | valuation.py:10-15 | a ZIP holds the price of the last row that writes it |
| `Valuation.NoEmptyKey` | valuation.py:14-15 | rows with a missing or empty ZIP never create a key |
| `Valuation.SkippedRowIsInvisible` | valuation.py:12-17 | a row whose price fails to parse, or whose ZIP is missing or empty, leaves the whole load as if the row were absent; the rows after it are still loaded |
| `Valuation.EmptyPriceIsZero` | valuation.py:13-15 | a row with a ZIP and an empty price cell stores 0 |
| `Valuation.LoadZipPpsqft` | valuation.py:6-18 | the loop builds the left fold of the rows (empty when there is no file), and the table has no empty-string key |
| `Valuation.Inputs` | valuation.py:24-33 | the `get`, the `max` and the two `if` chains yield exactly `PpsfFor`, `SqftUsed` and `Adjustment` of the request |
| `Valuation.EstimateValue` | valuation.py:23-44 | `Inputs` followed by the formula gives the same result as app.py's `estimate_value` over the same table; the ppsf is `table[zip]` or 220; sqft ≥ 600; low ≤ estimate ≤ high when the estimate is non-negative |
| `Valuation.LoadedFallback` | valuation.py:20-24 | over a loaded table, a missing or unknown ZIP is priced at 220 |
| `AppLeads.StagePoints` | app.py:76 | each stage is worth one of 0, 5, 10, 20, 30 |
| `AppLeads.ShortTimeline` | app.py:72 | definition of the `"0-3"` / `"3-6"` timeline test worth 15; `Score` and `BestLead` use it |
| `AppLeads.Score` | app.py:68-77 | the score is between 0 and 105 |
| `AppLeads.ComputeScore` | app.py:68-77 | the running total equals the sum of the seven contributions and lies in [0, 105] |
| `AppLeads.ScoreDependsOnlyOnScoredFields` | app.py:70-76 | two leads that agree on phone, email, timeline, role, address, both consents and stage have the same score |
| `AppLeads.StageOrder` | app.py:76 | with other fields fixed: New < Contacted < Qualified < Appointment < Agreement, and Closed/Lost scores like New |
| `AppLeads.UnknownStage` | app.py:76 | a stage outside the table scores like New |
| `AppLeads.BestLead` | app.py:68-77 | the bound 105 is reached by a seller with every signal at the Agreement stage |
| `AppLeads.SearchBlob` | app.py:106 | definition: the lower-cased `" ".join` of the nine searched fields, a missing field as ""; `SearchFindsField` states what the search then finds |
| `AppLeads.SearchFindsField` | app.py:105-107 | a non-empty query found, ignoring case, inside any one of the nine searched fields passes the search filter |
| `AppLeads.RolePasses` | app.py:103 | definition of `if role and ld.role != role: continue` not skipping; its use is stated by `Selected` and `FilterRows` |
| `AppLeads.StagePasses` | app.py:104 | definition of `if stage and ld.stage != stage: continue` not skipping; its use is stated by `Selected` and `FilterRows` |
| `AppLeads.QueryPasses` | app.py:105-107 | definition of the search test not skipping; `SearchFindsField` and `NoFilterPassesAll` state its cases |
| `AppLeads.Matches` | app.py:103-107 | definition: the three filters together; `Selected` keeps exactly the rows that match |
| `AppLeads.NoFilterPassesAll` | app.py:103-105 | with no (or empty) query, role and stage every lead matches |
| `AppLeads.Selected` | app.py:101-108 | a lead is kept exactly when it is in the table and passes the role, stage and search filters, and each matching lead appears as many times as in the table (a non-matching one not at all) |
| `AppLeads.FilterRows` | app.py:101-108 | the filtering loop, testing role, then stage, then the search text, leaves exactly `Selected` of the table |
| `AppLeads.Key` | app.py:109 | definition of the sort key `(score, created_at)` |
| `AppLeads.KeyAtLeast` | app.py:109 | definition of Python's tuple order on the key, `>=`; `SortDesc` and `SortStable` state the sort built on it |
| `AppLeads.Insert` | app.py:109 | inserting keeps the multiset and keeps a descending list descending |
| `AppLeads.SortDesc` | app.py:109 | the sort is a permutation and is non-increasing by (score, created_at) |
| `AppLeads.SortStable` | app.py:109 | the sort is stable: leads with equal keys keep their relative order |
| `AppLeads.SelectedWithKey` | app.py:101-108 | filtering commutes with picking out one key: the matching leads with key k are the table's leads with key k that match, in table order |
| `AppLeads.ListLeads` | app.py:97-110 | the result holds exactly the matching leads, is a permutation of the filtered list, is ordered non-increasing by (score, created_at), and for every key lists the table's matching leads with that key in table order |
| `AppLeadUpdate.Target` | app.py:118 | definition of `hasattr`: the attribute an item names, or none for a key the record lacks; `ApplyGet` states what `setattr` then does |
| `AppLeadUpdate.Apply` | app.py:118 | definition of one `setattr`; `ApplyGet` states that it changes only the attribute it names |
| `AppLeadUpdate.Patched` | app.py:117-118 | definition of the payload loop as a left fold of `Apply`; `PatchedFrame` and `PatchedLastWins` state its result |
| `AppLeadUpdate.ApplyGet` | app.py:117-118 | one payload item sets the attribute it names and nothing else; a key with no attribute changes nothing |
| `AppLeadUpdate.PatchedFrame` | app.py:117-118 | an attribute no payload item names keeps its value |
| `AppLeadUpdate.PatchedLastWins` | app.py:117-118 | an attribute the payload names holds the value of the last item naming it |
| `AppLeadUpdate.Rescored` | app.py:119-120 | the stored score equals the score of the stored record, `updated_at` is the current time, and no other attribute changes |
| `AppLeadUpdate.IndexOfId` | app.py:115 | finds the first row with the requested id, or reports that there is none |
| `AppLeadUpdate.UpdateLead` | app.py:112-122 | no row with the id gives not-found; otherwise the row becomes the patched, stamped and re-scored record, and every attribute the payload does not name is unchanged except `score` and `updated_at` |
| `AdminGui.ApiHeaders` | admin_gui.py:19-23 | `X-Admin-Key` is present exactly when `admin` is true and the stored key is non-empty, it carries that key, and there is no other header |
| `AdminGui.Raises` | admin_gui.py:185-186 | definition: an element without `.get`, or a rate `float` rejects; `ValidateItems` reports the first one |
| `AdminGui.FiveDigits` | admin_gui.py:187 | definition of `len(z)==5 and z.isdigit()`; `OneBadRateRejectsAll` shows a ZIP that passes and one that does not |
| `AdminGui.Rate` | admin_gui.py:186 | a missing `ppsf` counts as the finite 0, a converted value is passed on as the Python float it is (finite, infinite or NaN), and only a value `float` rejects raises |
| `AdminGui.IsPositive` | admin_gui.py:187 | definition of `p > 0` on a Python float (true for +inf, false for -inf and NaN); `NonFiniteRates` states its cases |
| `AdminGui.Counted` | admin_gui.py:185-187 | an item counts only when it is an object whose rate was converted, so a counted item never raises |
| `AdminGui.CountIsCardinality` | admin_gui.py:183-188 | a running count equals the number of positions that satisfy the test, so it never exceeds the number of items |
| `AdminGui.CountValid` | admin_gui.py:183-188 | the count of valid rows is the number of counted positions and at most the number of items |
| `AdminGui.MissingPpsfNeverCounted` | admin_gui.py:186-187 | an item without `ppsf` is never counted |
| `AdminGui.PaddedZipCountsAlike` | admin_gui.py:185 | whitespace around the ZIP does not change whether an item is counted |
| `AdminGui.ValidateItems` | admin_gui.py:181-191 | success exactly when no item raises, with the count of five-digit-ZIP, positive-rate items, at most the number of items; otherwise the error names the first item that raises and says which kind of failure it is |
| `AdminGui.OneBadRateRejectsAll` | admin_gui.py:185-187 | ZIP 20774 at 300 counts, ZIP "1" does not, and a non-numeric rate raises |
| `AdminGui.NonFiniteRates` | admin_gui.py:186-187 | an infinite rate with a five-digit ZIP is counted, negative infinity and NaN are never counted (`p > 0` is false for them), and none of them raises |
| `PyStrings.Truthy` | app.py:103-105 | definition of `if s:` on an optional string: neither `None` nor "" |
| `PyStrings.OrEmpty` | app.py:106 | `s or ""`: empty exactly when `s` is not truthy, and `s` itself otherwise |
| `PyStrings.Join` | app.py:106 | definition of `sep.join(parts)`; `JoinSplit` states that each part appears in it whole |
| `PyStrings.JoinSplit` | app.py:106 | every part of a join sits, unbroken, between some prefix and some suffix of the result |
| `PyStrings.Contains` | app.py:107 | definition of `needle in hay`; `ContainsAt` ties it to an occurrence at some index |
| `PyStrings.ContainsAt` | app.py:107 | the substring test holds exactly when the needle occurs at some index of the text |
| `PyStrings.StripIgnoresPadding` | admin_gui.py:185 | padding a text with whitespace on either side makes no difference to `strip` |
| `PyStrings.Strip` | admin_gui.py:185 | `strip()`: the result is the input with a blank prefix and a blank suffix cut off, and it neither starts nor ends with whitespace |
| `PyStrings.IsDigits` | admin_gui.py:187 | definition of `isdigit()`: non-empty and every character an ASCII digit |
| `PyStrings.Lower` | app.py:106-107 | lower-casing keeps the length, maps each character, and leaves no upper-case ASCII letter |

## Left out

- HTTP plumbing: routing, the health endpoint, startup hooks. A missing lead in `update_lead` becomes the `NotFound` outcome instead of an HTTP 404.
- Persistence: the engine, sessions, commit and refresh. The lead table is the sequence of rows the database returns. Integrity errors, such as a patch that gives a lead an id already in use, are not modelled.
- `create_lead` (app.py:88-95): it builds a record from an untyped payload and persists it. Only its scoring rule is modelled, shared with `update_lead` through `AppLeads.Score`.
- Clock: `datetime.utcnow()` is the parameter `now`, and timestamps are integers.
- Files: the existence check and `csv.DictReader` in valuation.py. The file arrives as an optional sequence of rows, each reduced to its `zip` and `price_per_sqft` cells.
- `float` parsing of CSV text is the parameter `parse`. Infinite and NaN results are not modelled.
- JSON: `json.loads`, the `isinstance(items, list)` assertion, and `str()`/`float()` on JSON values are outside the validation model. Each item comes in as the text `str()` gives for its ZIP and the result of `float()` on its rate: a finite value, an infinity or NaN, or the fact that `float()` raised.
- Unicode: `lower`, `strip` and `isdigit` use their ASCII behaviour. Other Unicode case mappings, whitespace and digits are not modelled.
- Payload typing: an `update_lead` payload item carries a value of its attribute's own type. Values of another type, and `hasattr` matches on non-column attributes such as methods, are not modelled.
- Valuation argument types: `api_valuation` (app.py:84-86) passes raw JSON values, and the page (app.py:253) sends `Number(...)`. The model takes an optional integer size and bedroom count and an optional real bathroom count. A fractional size such as 1500.5, which the source returns unchanged as `sqft_used`, and a text `beds`, on which the comparison raises `TypeError`, are not modelled.
- Magnitudes: the model computes on unbounded integers and exact rationals. In the source, `ppsf * sqft * adj` is an IEEE double: a very large size (around 10^400) makes the product raise `OverflowError`, and sizes past 2^53 / ppsf no longer give exact products. For example ZIP 20774, 5 beds, 3 baths and 10^14 sq ft gives 30284000000000004 in doubles where the model gives 30284000000000000, so `EstimateFrom`'s "within 0.5 of the exact value" holds for the model, not for the source there.
- UI: Streamlit widgets, the HTML page and the `requests` helpers `get_json`, `post_json` and `patch_json`. The stored admin key in `st.session_state` is the parameter `adminKey`.
- In-place sort: the Python list sort is modelled as a pure stable sort on a sequence. Its contract determines the order completely, but in-place mutation of `out` is not modelled.
- `list_leads` returns `ld.dict()` dictionaries; the model returns the records themselves.
- `AppValuation.RoundHalfEven`: rounds the exact rational value of ppsf × sqft × factor. The source rounds an IEEE double, so results can differ at and near ties, and for large products (see "Magnitudes"). NaN and infinite inputs are not modelled.
- `AppValuation.Adjustment`: reports the factor in exact hundredths. The source returns the accumulated float, for example 1.1300000000000001.
