# Customer-success health dashboard: the scoring engine

This project models the account-scoring engine inside the `App` component of
`src/App.jsx`, a customer-success dashboard for post-sale accounts. The engine
has six parts, and the model covers each:

- **Health score.** Five bucketed sub-scores are combined by a weighted sum
  and rounded to a 0..100 score. The sub-scores are login recency, API usage,
  open support tickets, payment status and time in the onboarding stage.
  (`Scoring`)
- **Classification.** A score maps to `healthy`, `monitor` or `at-risk`.
  (`Scoring.Classify`)
- **Automation triggers.** Five fixed rules, each gated by its `enabled`
  flag, produce an ordered list of trigger ids. (`Triggers`)
- **Metrics.** Per-tier counts and revenue, protected and at-risk revenue,
  open work on at-risk accounts, distinct owners and the rounded mean days
  in stage of at-risk accounts. (`Metrics`)
- **Views.** The dashboard list is scored, filtered by tier and stably
  sorted by health score (lowest first), MRR (highest first) or renewal
  (soonest first). Three fixed lists have the same shape: renewals within
  90 days, at-risk accounts by revenue and the intervention queue. (`Views`)
- **Account repository and settings.** A `Dashboard` object holds the
  accounts, the weights and the trigger configuration. It adds, updates and
  deletes accounts, and its settings save commits new weights only when they
  total 100. (`Repository`)

Arithmetic is exact over the integers. Three source operations are restated
in integer form:

- `x / 100` followed by `Math.round` becomes `(x + 50) / 100` with floor
  division. Its contract is `100*r - 50 <= x < 100*r + 50`.
- `d <= e * 1.5` becomes `2*d <= 3*e`.
- The rounded mean `Math.round(sum / n)` is characterised by
  `2*n*r - n <= 2*sum < 2*n*r + n`.

In the views, "highest MRR first" is stated as ascending order of `-mrr`.
Stability is stated as follows: for every key value, the accounts that carry
it appear in the view in the same relative order as in the filtered list.
`Views.StableSortUnique` shows that sortedness, stability and being a
permutation pin the result down completely. So the insertion sort used here
gives the same list as any stable sort, including the `Array.prototype.sort`
that ECMAScript 2019 and later require to be stable.

Files:

- `accounts.dfy`: the records, tables and seed data.
- `scoring.dfy`: the health score and classification.
- `triggers.dfy`: the automation triggers.
- `metrics.dfy`: the metrics.
- `views.dfy`: the filter and sort pipelines, and the in-place stable sort.
- `repository.dfy`: the stateful dashboard.

## Model

| member | source | states |
|---|---|---|
| Accounts.ExpectedStageDays | src/App.jsx:28-34 | Signed is expected to take 14 days, Kickoff 30, Integration 45, Training 21 and Go-Live 30. Any other stage counts as 30 days, so every expected duration is positive. |
| Scoring.LoginScoreIsBanded | src/App.jsx:316-320 | The login sub-score is the step table ≤7 → 100, ≤14 → 70, ≤30 → 40, else 0. Each bound is inclusive and the first matching band wins. |
| Scoring.LoginScoreAntitone | src/App.jsx:316-320 | A later last login never raises the login sub-score. |
| Scoring.SupportScoreIsBanded | src/App.jsx:326-330 | The support sub-score is the step table ≤2 → 100, ≤5 → 70, ≤10 → 40, else 20. |
| Scoring.SupportScoreAntitone | src/App.jsx:326-330 | More open tickets never raise the support sub-score. |
| Scoring.PaymentScore | src/App.jsx:333-336 | The payment sub-score lies in 0..100. It is 100 exactly for `current`, 50 exactly for `late`, and 0 for anything else. |
| Scoring.StageScoreIsBanded | src/App.jsx:339-343 | The stage sub-score is 100 up to the expected days and 60 up to 1.5× the expected days (the integer bound `3*e/2`), else 30. |
| Scoring.StageScoreAntitone | src/App.jsx:339-343 | Staying longer in a stage never raises the stage sub-score. |
| Scoring.BucketAntitone | src/App.jsx:316-343 | Any band table whose bounds rise and whose scores fall is antitone. This is the shape all three bucketed sub-scores share. |
| Scoring.HealthScore | src/App.jsx:346-353 | The score is the weighted sum divided by 100, rounded to nearest with halves rounded up. |
| Scoring.HealthScoreInRange | src/App.jsx:346-353 | With non-negative weights totalling 100 and API usage in 0..100, the score lies in 0..100. |
| Scoring.FirstSeedAccountScores53 | src/App.jsx:38-54 | The first seed account under the default weights scores login 40, API 45, support 40 (its 8 tickets fall in the up-to-10 band), payment 100 and stage 60. The weighted sum is 5325, the score is 53, and the account classifies as at-risk. |
| Scoring.Classify | src/App.jsx:357-361 | `healthy` exactly for scores ≥ 80, `monitor` exactly for 60..79, `at-risk` exactly below 60. Each band's lower bound is inclusive. |
| Scoring.ClassifyMonotone | src/App.jsx:357-361 | A higher score never lands in a less healthy tier. |
| Scoring.ScoreOne | src/App.jsx:500-504 | A scored account keeps its record. Its attached score is the account's health score under the given weights, and its tier is the classification of that score. |
| Scoring.ScoreAll | src/App.jsx:500-504 | Scoring a list keeps its length and order, and scores each account on its own. |
| Triggers.ActiveTriggers | src/App.jsx:364-388 | The pushed list equals the reference list. It is in declaration order, so no id repeats. It contains a trigger exactly when the trigger is enabled and its rule holds. |
| Triggers.FiringOrdered | src/App.jsx:364-388 | The reference list is strictly increasing in declaration order. |
| Triggers.FiringMembers | src/App.jsx:364-388 | A trigger is in the reference list exactly when it fires. |
| Triggers.DisabledNeverFires | src/App.jsx:368-385 | A disabled trigger never fires. |
| Triggers.LowHealthMeansAtRisk | src/App.jsx:374-376 | When enabled, the low-health rule fires exactly for at-risk accounts. |
| Triggers.LowHealthImpliesRenewalRisk | src/App.jsx:374-385 | For an account renewing within 60 days, a firing low-health rule implies a firing renewal-risk rule, if that rule is enabled. |
| Triggers.IntegrationStallBoundary | src/App.jsx:377-382 | Integration expects 45 days. An account there is stalled from day 68 on; 52 or 67 days do not fire the rule. |
| Metrics.WithStatus | src/App.jsx:399-401 | A tier filter keeps exactly the accounts of that tier and never lengthens the list. |
| Metrics.CalculateMetrics | src/App.jsx:391-434 | Each tier's count and revenue are the size and revenue of the scored accounts in that tier. Total revenue is the revenue of all accounts. The open-task total counts open tasks of at-risk accounts only. The owner count is the number of distinct owners. The tier counts and tier revenues add up to the totals. Protected revenue is the healthy revenue and risk revenue is the rest. `atRiskCustomers` is the at-risk count. The average days is 0 when no account is at risk, otherwise the rounded mean over at-risk accounts. The owner count lies between 1 and the number of accounts when there are any accounts. |
| Metrics.StatusPartition | src/App.jsx:398-406 | The three tiers split every scored list in both size and revenue. |
| Metrics.ScoredMrrIsTotal | src/App.jsx:403-406 | Revenue summed over the scored list equals revenue summed over the raw accounts. |
| Metrics.RoundedMean | src/App.jsx:414-416 | The result is the integer nearest the mean, with halves rounded up. |
| Metrics.OpenWorkCountsAtRiskOnly | src/App.jsx:411-412 | Adding an account raises the open-task total by that account's open tasks if it is at risk, and by nothing otherwise. |
| Metrics.OwnersBounds | src/App.jsx:413 | There are never more distinct owners than accounts, and at least one when there is an account. |
| Metrics.SeedOwners | src/App.jsx:37-209 | The seed accounts have exactly two distinct owners. |
| Views.Select | src/App.jsx:444-446 | A selection keeps exactly the accounts that pass it. |
| Views.SelectAllTiers | src/App.jsx:444-446 | The `all` filter keeps every account in its original order. |
| Views.SortByKey | src/App.jsx:449-461 | The in-place sort leaves the array sorted by the key, stable and a permutation of its old contents. |
| Views.Insert | src/App.jsx:449-461 | One insertion step extends the sorted prefix by one element and keeps stability and the multiset. |
| Views.SwapKeepsKeyOrder | src/App.jsx:449-461 | Exchanging neighbours with different keys keeps the relative order of every group of equal keys. |
| Views.StableSortUnique | src/App.jsx:449-461 | Two lists that are both sorted, stable with respect to each other and permutations of each other are equal. |
| Views.View | src/App.jsx:437-464 | The view is a stable sort, by the chosen key, of exactly the selected scored accounts. |
| Views.FilteredAndSorted | src/App.jsx:437-464 | The `all` filter yields a permutation of every scored account, and a tier filter yields exactly the accounts of that tier. The result is stably sorted by score ascending, MRR descending or renewal ascending. Under the default option every comparison is 0, so the filtered list comes back unchanged. |
| Views.RenewalWindow | src/App.jsx:1300-1302 | The view holds exactly the accounts renewing within 90 days, soonest first, in stable order. |
| Views.HighestRevenueRisk | src/App.jsx:1346-1348 | The view holds exactly the at-risk accounts, highest MRR first, in stable order. |
| Views.InterventionQueue | src/App.jsx:1438-1445 | The view holds exactly the at-risk accounts, lowest score first, in stable order. All of their scores are below 60. |
| Repository.MaxId | src/App.jsx:470 | `Math.max(...ids, 0)` is non-negative and at least every id. It is either 0 or an id that occurs. |
| Repository.NextId | src/App.jsx:470 | The new id is at least 1 and strictly greater than every existing id. |
| Repository.MergeNoChanges | src/App.jsx:478 | Spreading an update that carries no fields leaves the record unchanged. |
| Repository.MergeWhole | src/App.jsx:1657 | The edit form submits a whole record, and merging it replaces the stored record. |
| Repository.MergeKeepsId | src/App.jsx:478 | An update that carries no id keeps the record's id. |
| Repository.WithUpdated | src/App.jsx:478 | Length and order are kept. Records with other ids are untouched, and records with the id are merged. |
| Repository.UpdateKeepsIds | src/App.jsx:478 | An update whose id is absent or equal to the target keeps every id. |
| Repository.WithoutId | src/App.jsx:484 | Exactly the records without the id remain, and the list never grows. |
| Repository.WithoutIdAppend | src/App.jsx:484 | Removal distributes over concatenation, so the survivors keep their order. |
| Repository.WithoutAbsentId | src/App.jsx:484 | Removing an id that no account carries changes nothing. |
| Repository.DeleteRemovesOne | src/App.jsx:484 | With unique ids, deleting a present id removes exactly one account. |
| Repository.DeleteKeepsUniqueIds | src/App.jsx:484 | Deletion never creates a duplicate id. |
| Repository.AddThenDeleteRestores | src/App.jsx:467-489 | Deleting the account just added restores the collection. |
| Repository.Dashboard.constructor | src/App.jsx:284-297 | With nothing stored, the dashboard starts from the seed accounts, the default weights and the default triggers. This initial state is valid: ids are unique and the weights are non-negative and total 100. |
| Repository.Dashboard.AddCustomer | src/App.jsx:467-475 | Exactly one record is appended. Its id is above every existing id, its task list is empty, and id uniqueness is preserved. The settings are unchanged, and a valid state stays valid. |
| Repository.Dashboard.UpdateCustomer | src/App.jsx:477-481 | The collection becomes the id-targeted merge, and nothing else changes. A valid state stays valid when the patch carries no id or the same id. |
| Repository.Dashboard.DeleteCustomer | src/App.jsx:483-489 | The collection becomes the filtered one and id uniqueness is preserved. Nothing else changes, and a valid state stays valid. |
| Repository.Dashboard.ConfirmDelete | src/App.jsx:1747-1749 | The account is deleted exactly when the typed text equals the confirmation code. Otherwise nothing changes. A valid state stays valid. |
| Repository.Dashboard.SaveSettings | src/App.jsx:2244-2255 | New weights and triggers are committed together exactly when the weights total 100, and otherwise both are kept. A valid weight total stays valid, and the accounts are unchanged. A valid state stays valid. |
| Repository.DashboardScoresInRange | src/App.jsx:346-353 | Under a valid dashboard's weights, every account whose API usage is a percentage scores between 0 and 100. |

## Left out

- Rendering, tabs, modals, dropdowns, card expansion and the pie chart are presentation only.
- Loading from and saving to `localStorage` (src/App.jsx:284-309) is browser I/O through a JSON parser. `Repository.Dashboard.constructor` models only the case where nothing is stored. A stored snapshot, the parse-error fallback, and the save effect that writes only when the collection is non-empty are not modelled.
- Repository.Dashboard.SaveSettings: requires non-negative weights. The weight sliders (src/App.jsx:2347-2352) only produce values from 0 to 100, and the save handler does not check the sign itself.
- Repository.Dashboard.ConfirmDelete: the confirmation code comes from `Math.random` (src/App.jsx:988) and is taken as a parameter. The typed text is taken as already upper-cased, as the input field stores it.
- JavaScript floating point is replaced by exact integer arithmetic. For example, a weighted sum whose float value lands just below a `.5` boundary is not modelled.
- Scoring.HealthScore: non-integer or missing field values, and the `NaN` they would produce, are not modelled. Record fields are unbounded integers.
- Accounts.ExpectedStageDays: the lookup `EXPECTED_STAGE_DAYS[stage] || 30` would also find inherited object properties such as `constructor`. The model treats every name other than the five stages as unknown, with 30 days.
- Repository.Dashboard.UpdateCustomer: the edit path passes the record as shown in the list. In the source that record also carries `healthScore` and `healthStatus`, and the spread copies them into storage. Stored records here have no such fields.
- Views.SortByKey is an insertion sort, not the engine's algorithm for `Array.prototype.sort`. `Views.StableSortUnique` shows that every stable sort gives the same result.
- Display formatting is not modelled: `toFixed`, `toLocaleString`, ARR shown in thousands, and colour bands. Trigger names, conditions, actions and priorities are display text; only `enabled` is read.
- The customer form's input handling is not modelled. Its only effect on the engine is which fields reach `AddCustomer` and `UpdateCustomer`.
