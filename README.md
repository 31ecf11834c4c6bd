# Bill-Dates core in Dafny

Bill-Dates is a personal-finance back end. It records bills, aggregates income
and expense by category and by tag, scores a user's financial health, turns a
risk questionnaire into a risk score, and recommends a fund portfolio. The
portfolio comes from a mean-variance (modern portfolio theory) efficient
frontier, explained in text by a language model whose Markdown is stripped
before display.

This project models the sequential logic of that back end and proves what it
promises. There is one Dafny module per source file:

- `MptSolver` (`mpt_solver.dfy`): the portfolio engine.
  - Portfolio metrics (return wᵀr, volatility sqrt(wᵀΣw), drawdown 2.5 × volatility).
  - The solver-mode dispatch and result packaging of `optimize_portfolio`.
  - The efficient-frontier loop over an evenly spaced grid of target returns.
  - The risk-score → frontier-index rule, with in-place zeroing of small weights and renormalisation.
  - The allocation formatter.
  - The numeric solver and the square root are parameters of the model (a `Numerics` value).
  - Frontier entries keep their weights in `array<real>`, so the in-place zeroing is modelled, including its effect on the frontier entry.
- `Utils` (`utils.dfy`):
  - numeric-input cleaning (character-class stripping, then a 万/千 multiplier);
  - the weighted risk score with its defaults and clamp;
  - validation of the user profile;
  - the tier and value choice of the currency and percentage display.
- `Services` (`services.dfy`):
  - the health-score ladder;
  - the current-month range computed by date arithmetic, with "today" as a parameter;
  - the label and padding logic of the analysis trends;
  - the goal counts of the savings statistics;
  - the risk-level → investment-style and risk-level → product-tier mappings.
- `BillService` (`bill_service.dfy`):
  - turning a stored row into a bill;
  - building the filtered SQL query and its parameter list;
  - the tag-intersection filter;
  - the aggregation loop of `get_statistics`, with its conservation laws.
- `QwenService` (`qwen_service.dfy`):
  - the Markdown-stripping passes of `clean_qwen_output`, with Python regular-expression semantics written out;
  - the risk-label rule;
  - the numbered description of the first five funds;
  - the choice between the model's answer and the fallback template.
- `Wrappers` (`wrappers.dfy`) and `PyText` (`pytext.dfy`) are shared helpers:
  - `Option` and `Result`;
  - Python's whitespace class;
  - `str(n)` for naturals;
  - character counting.

Arithmetic is on `real` and `int`.

Where the code and its documentation disagree, the model follows the code:

- `calculate_portfolio_metrics` takes the square root of the quadratic form without clamping a negative value.
- `clean_numeric_input("10,0000万元")` is 10^9, not the 10^6 of its docstring (`Utils.CleanGroupedWanExample`).

## Model

Functions that only compute carry no contract of their own; the rows name the
lemma or method that states what each promises. `Utils.CleanNumericInput` is
specified by `Utils.CleanNumericInputSpec`. `Utils.ValidateUserData` is
specified by `Utils.MissingFieldsReported`, `Utils.ValidatedUserSpec` and
`Utils.AcceptProfileSpec`. `MptSolver.MapRisk` is specified by
`MptSolver.MapRiskTotalOnValidScores` and `MptSolver.MapRiskToPortfolio`.
`MptSolver.EfficientFrontier` is specified by
`MptSolver.EfficientFrontierShape` and `MptSolver.CalculateEfficientFrontier`.
`Services.MonthRange` is specified by `Services.MonthRangeSpec`.
`Services.AnalysisTrends` is specified by `Services.YearTrendSpec` and
`Services.MonthTrendSpec`. `Services.GetSavingsStats` is specified by
`Services.SavingsStatsSpec`. `BillService.KeepTagged` is specified by
`BillService.KeepTaggedMembers` and `BillService.KeepTaggedConcat`.
`QwenService.CollapseBlankLines` is specified by the `QwenService.Collapse…`
lemmas, and `QwenService.CleanPasses` by `QwenService.CleanQwenOutputSpec`.
Lemmas whose doc comment starts with "Helper" are arithmetic or sequence steps
of other proofs.

| member | source | states |
|---|---|---|
| MptSolver.EqualWeights | mpt_solver.py:101-102 | the starting weights: N entries, each 1/N |
| MptSolver.PortfolioMetrics | mpt_solver.py:61-82 | the expected return is Σ wᵢ·rᵢ; volatility is the square root of wᵀΣw, not clamped; max drawdown is exactly 2.5 × volatility |
| MptSolver.EqualWeightsSumToOne | mpt_solver.py:101-102 | the 1/N start vector sums to one |
| MptSolver.EqualWeightsReturn | mpt_solver.py:225-228 | the equal-weight portfolio's expected return is the mean of the fund returns |
| MptSolver.SingleFundMetrics | mpt_solver.py:61-82 | a portfolio entirely in fund i has that fund's return and the square root of its own variance as volatility |
| MptSolver.ReturnWithinFundRange | mpt_solver.py:72 | a long-only portfolio that sums to one earns between the worst and the best single-fund return |
| MptSolver.BuildProblem | mpt_solver.py:95-143 | every mode starts from 1/N, with bounds (0, 1) per fund, sum-to-one as the first constraint, and ftol 1e-9; a target risk takes precedence (maximise return at that volatility); else a target return minimises variance at that return; with neither, variance alone is minimised |
| MptSolver.StartPointFeasible | mpt_solver.py:96-102 | the start point lies within the bounds and meets the sum-to-one constraint |
| MptSolver.OptimizePortfolio | mpt_solver.py:137-160 | a solver that finishes with one weight per fund gives a result; that result keeps the solver's vector, recomputes the metrics from it, and passes the success flag and message through, even on non-convergence; a solver exception or a wrong-length vector escapes as an error |
| MptSolver.Linspace | mpt_solver.py:186 | the grid has exactly `num` values |
| MptSolver.LinspaceShape | mpt_solver.py:186 | the grid starts at a, ends at b, has the constant step (b − a)/(num − 1), and is ascending when a ≤ b |
| MptSolver.FrontierKeepsOnlySuccesses | mpt_solver.py:190-207 | every frontier entry comes from a grid target whose solve returned and reported success; it has one weight per fund and its own weights' metrics; there are never more entries than targets |
| MptSolver.FrontierCompleteWhenAllSucceed | mpt_solver.py:190-200 | when every solve succeeds, there is one entry per target, in grid order |
| MptSolver.FrontierOrdered | mpt_solver.py:190-200 | entries keep grid order, so an ascending grid gives ascending target returns |
| MptSolver.EfficientFrontierShape | mpt_solver.py:175-186 | at most `num_portfolios` entries; the grid runs from the minimum-variance portfolio's return to 0.9 × the largest fund return |
| MptSolver.CalculateEfficientFrontier | mpt_solver.py:162-210 | the loop's list equals the frontier specification; it fails exactly when the specification does (the minimum-variance solve raises, or a negative count makes `linspace` raise); every kept entry has its own fresh weights array |
| MptSolver.AddGridPoint | mpt_solver.py:191-207 | one loop step: earlier entries are unchanged, and the target's point is appended in a fresh array exactly when its solve succeeded |
| MptSolver.PyIndex | mpt_solver.py:249 | Python list indexing: any index it accepts is within the list |
| MptSolver.SelectedIndex | mpt_solver.py:245-249 | the selected entry, when indexing succeeds, is within the frontier |
| MptSolver.IndexInRange | mpt_solver.py:245-249 | for scores in [1, 10] the index trunc((score − 1)/9 · (len − 1)) is in [0, len − 1] and needs no wrap-around |
| MptSolver.IndexEndpoints | mpt_solver.py:245-249 | score 1 selects the first entry and score 10 the last |
| MptSolver.IndexMonotone | mpt_solver.py:245-249 | a higher score never selects an earlier entry |
| MptSolver.ScoreZeroWrapsAround | mpt_solver.py:245-249 | an unvalidated score of 0 on a 100-entry frontier gives index −11, which Python reads as entry 89 |
| MptSolver.ZeroSmall | mpt_solver.py:253 | weights below 0.001 become 0 and the others are kept |
| MptSolver.Scale | mpt_solver.py:254 | every weight is divided by the sum |
| MptSolver.EmptyFrontierFallback | mpt_solver.py:225-236 | an empty frontier gives 1/N weights that sum to one, their own metrics, and the score echoed |
| MptSolver.MappedWeightsNormalised | mpt_solver.py:245-266 | the selected weights: a weight is zero exactly when it was below 0.001; the others are divided by the new sum, so the result sums to one; the metrics are copied from the selected entry, not recomputed; the score is echoed |
| MptSolver.MapRiskTotalOnValidScores | mpt_solver.py:245-254 | for scores in [1, 10] the only failure is a selected entry whose weights are all below 0.001 (numpy's 0/0) |
| MptSolver.MapRiskToPortfolio | mpt_solver.py:212-266 | the result is the mapping's specification on the frontier before the call; the selected entry's own array is zeroed in place, so another entry sharing it sees the change; every other array is unchanged |
| MptSolver.PlanEntriesExactly | mpt_solver.py:282-291 | a plan entry exists exactly for each fund whose weight exceeds 0.001, with amount = weight × investment and percentage = weight × 100 |
| MptSolver.SortByWeightDescCorrect | mpt_solver.py:294 | the sorted plan is in descending weight order, is a permutation of the unsorted plan, and keeps equal weights in their original order (Python's sort is stable) |
| MptSolver.FormatPortfolioResult | mpt_solver.py:268-302 | the plan list is the sorted filtered entries; return, volatility, drawdown and score are carried over from the portfolio |
| Utils.RemoveAll | utils.py:56-62 | no character of the stripped class is left, and the text never grows |
| Utils.RemoveAllConcat | utils.py:56-62 | stripping distributes over concatenation, so the surviving characters stay in order |
| Utils.CleanTextIsOneFilter | utils.py:55-62 | the three `re.sub` passes together remove exactly one character class (岁年万千元, y/e/a/r/s/$ in either case, comma, whitespace), not the word "years" |
| Utils.ParseFloatOfNat | utils.py:72 | `float(str(n))` is n |
| Utils.ParseFloatDigits | utils.py:72 | a non-empty run of digits parses as its decimal value |
| Utils.CleanNumericInputSpec | utils.py:49-76 | a number comes back unchanged; `None`, lists and dicts are rejected as unsupported types; an empty remainder is an error exactly when nothing survives the stripping; otherwise the value is the parsed remainder times the multiplier of the original string |
| Utils.CleanStringValue | utils.py:64-72 | a remainder that parses as x gives x × 10000 if the original holds 万, else x × 1000 if it holds 千, else x |
| Utils.CleanPlainNumber | utils.py:71-72 | a string of digits is read back as its number |
| Utils.CleanNumberWithUnits | utils.py:55-72 | a number followed by unit characters is that number, times 10000 when 万 is among the units, else times 1000 when 千 is |
| Utils.CleanAgeExample | utils.py:45 | "25岁" reads as 25 |
| Utils.CleanWanExample | utils.py:65-67 | "10万元" reads as 100000 |
| Utils.CleanGroupedWanExample | utils.py:46 | "10,0000万元" reads as 10^9; the code, not the docstring's 10^6, decides |
| Utils.CleanNoiseExample | utils.py:73-74 | "Years" is all noise and is rejected as having nothing left |
| Utils.RiskScore | utils.py:78-103 | there is no score exactly when some answer is unhashable (the `.get` lookup raises `TypeError`); otherwise the score lies in [1, 10] |
| Utils.RiskScoreAllUnknown | utils.py:93-101 | hashable answers missing from the tables default to 5, so three of them score exactly 5; with an unhashable one among them there is no score |
| Utils.RiskScoreRange | utils.py:93-101 | whenever there is a score, the weighted sum of the table entries lies in [1.8, 8.2], so the clamp never binds and the score is that sum |
| Utils.RiskScoreIsTenths | utils.py:103 | whenever there is a score, it is a whole number of tenths, so rounding to two places leaves it unchanged |
| Utils.RiskScoreMonotone | utils.py:98-101 | higher answer scores never lower the clamped weighted score |
| Utils.Missing | utils.py:125 | the missing list holds exactly the required fields absent from the data, and is empty exactly when all are present |
| Utils.MissingFieldsReported | utils.py:118-127 | validation reports missing fields exactly when some required field is absent, and the report names exactly the absent ones |
| Utils.AcceptProfileSpec | utils.py:134-159 | with both numbers cleaned, the profile is accepted exactly when 18 ≤ age ≤ 100, amount > 0 and every risk answer is hashable; the errors come in that order, the last being the `TypeError` the `except (ValueError, KeyError)` does not catch; an accepted profile has the truncated age, the amount, the risk score of the three answers, and every other field copied |
| Utils.ValidatedUserSpec | utils.py:129-159 | an accepted profile has every required field, both numbers cleaned without error, and is the range checks' verdict on those cleaned numbers |
| PyText.Trunc | utils.py:150 | `int()` on a float rounds toward zero: a non-negative value drops less than 1, a negative one rises less than 1 |
| Utils.AgeCheckedBeforeTruncation | utils.py:135-150 | the range check sees the untruncated age: 100.5 is rejected although `int(100.5)` would be 100 |
| Utils.UnhashableAnswerEscapes | utils.py:93-95 | a list as the scenario answer of an otherwise valid profile ends validation with the lookup's `TypeError`, not with a validation error |
| Utils.CurrencyDisplaySpec | utils.py:175-180 | the displayed number times its tier's scale is the amount; 亿 is used from 1e8, 万 from 1e4 up to below 1e8, and no unit below 1e4; a tiered number is at least 1 |
| Utils.PercentageValue | utils.py:193 | the displayed percentage divided by 100 is the fraction |
| Services.HealthScore | services.py:51-74 | the score always lies in [0, 100] |
| Services.HealthScoreNoPositiveIncome | services.py:53-74 | zero income scores 0; negative income leaves both ratios at 0 and scores 50 |
| Services.HealthScoreBounds | services.py:56-74 | with non-zero income the score is 50 plus the savings points minus the expense penalty, always within [30, 80], so the clamp never binds |
| Services.HealthScoreExtremes | services.py:56-72 | for positive income the top score 80 is reached exactly when balance > 0.2 × income and expense ≤ 0.8 × income; the bottom score 30 exactly when balance ≤ 0.05 × income and expense > 0.9 × income |
| Services.RateThresholds | services.py:59-65 | the savings-rate thresholds 20, 10 and 5 percent are thresholds on the balance as a fraction of the income |
| Services.RatioThresholds | services.py:68-72 | the expense-ratio thresholds 0.9 and 0.8 are thresholds on the expense as a fraction of the income |
| Services.HealthScoreMonotone | services.py:56-72 | for positive income, a larger balance never lowers the score and a larger expense never raises it |
| Services.NextDay | services.py:16 | the next calendar date is valid, and there is none only after 9999-12-31 |
| Services.PrevDay | services.py:17 | the previous calendar date is valid, and there is none only before 0001-01-01 |
| Services.AddDaysWithinMonth | services.py:16 | adding days that stay within the month just advances the day |
| Services.SubDaysWithinMonth | services.py:17 | subtracting fewer days than the day number stays in the month |
| Services.AddDaysSplit | services.py:16 | adding a + b days is adding a days, then b |
| Services.Day28PlusFour | services.py:16 | day 28 plus four days always lands in the next month, on day 32 minus this month's length (an overflow only past year 9999) |
| Services.SubDaysSplitLast | services.py:17 | stepping back a date's day number of days lands on the last day of the previous month |
| Services.MonthRangeSpec | services.py:11-18 | the range is day 1 to the last day of today's month; the only failure is December 9999, where the day-28 step overflows |
| Services.Labels | services.py:85-94 | n labels, the i-th being i + 1 followed by the suffix |
| Services.PaddedSpec | services.py:115-116 | the data array has one entry per label: period i + 1's total, or 0.0 where it has no data |
| Services.YearTrendSpec | services.py:81-118 | year mode: twelve labels 1月 to 12月 over January 1 to December 31, with the data arrays alongside |
| Services.MonthTrendSpec | services.py:86-118 | month mode (any other period): one label per day of today's month over that month, with the data arrays alongside; only December 9999 fails |
| Services.GoalsPartitioned | services.py:155-156 | every goal is active or completed, never both, so the counts add up to the number of goals |
| Services.TotalSavingsConcat | services.py:154 | the total savings are additive over the goal list |
| Services.SavingsStatsSpec | services.py:151-177 | the counts partition the goals; the total is the sum of current amounts; the 30-day savings are income minus expense in all four cases of present and missing sums, a missing sum read as 0 |
| Services.InvestmentProfile | services.py:451-459 | 保守型 gets deposit/bond/货币基金 with style 保守稳健; 平衡型 gets fund/bond/部分股票基金 with 平衡配置; any other level gets fund/stock/混合投资 with 积极进取 |
| Services.InvestmentStyleDistinguishes | services.py:264-272 | the three styles are distinct, so the style tells which of the three branches was taken |
| Services.AllowedProductRiskNested | services.py:547-560 | no profile or 保守型 allows low; 平衡型 allows low and medium; any other level allows all three; each set contains the previous one |
| BillService.FormatBill | src/bill_service.py:38-48 | a missing row gives no bill; otherwise every column is copied, and NULL, empty or malformed tag text becomes no tags |
| BillService.Formatted | src/bill_service.py:92 | one bill per fetched row, each that row formatted |
| BillService.Filters | src/bill_service.py:74-83 | at most three filters |
| BillService.Params | src/bill_service.py:72-83 | one parameter per filter |
| BillService.ClausesPlaceholders | src/bill_service.py:74-83 | the clauses carry exactly one `?` per filter |
| BillService.FiltersSpec | src/bill_service.py:74-83 | one filter per supplied argument, in the order category, start, end; the end date gets " 23:59:59" appended |
| BillService.QueryPlaceholders | src/bill_service.py:71-87 | the full query has exactly as many `?` placeholders as parameters |
| BillService.BuildQuery | src/bill_service.py:71-85 | the query is the base, then one clause per supplied filter, then `ORDER BY timestamp DESC`; the parameters match the filters; placeholders and parameters agree in number |
| BillService.AppendFilter | src/bill_service.py:74-83 | one `if` step keeps the query and parameters in step with the filters applied so far |
| BillService.KeepTaggedMembers | src/bill_service.py:94-101 | exactly the bills whose tags intersect the wanted tags are kept |
| BillService.KeepTaggedConcat | src/bill_service.py:97-101 | filtering distributes over concatenation, so the kept bills stay in input order |
| BillService.Disjoint | src/bill_service.py:99 | the disjointness test is true exactly when the tag lists share no tag |
| BillService.FilterByTags | src/bill_service.py:94-103 | with no tags or an empty list every bill is kept; otherwise the loop keeps exactly the intersecting bills, in order |
| BillService.FetchBills | src/bill_service.py:59-103 | the bills are the formatted rows the database returns for the built query and parameters, then tag-filtered |
| BillService.AddToLookup | src/bill_service.py:203-205 | crediting one bucket changes that key's sums only |
| BillService.AddToTotal | src/bill_service.py:203-205 | crediting one bucket adds the amount to the grand total under its flag |
| BillService.AddToKeys | src/bill_service.py:203-204 | a new key is appended at the end; an existing key keeps its place |
| BillService.AddToDistinct | src/bill_service.py:203-204 | keys stay distinct |
| BillService.AddTagsLookup | src/bill_service.py:208-211 | one bill's tags: each tag's entry grows by the amount times that tag's occurrences |
| BillService.AddTagsTotal | src/bill_service.py:208-211 | one bill's tags: the grand total grows by the amount times the number of tags |
| BillService.AddBillTags | src/bill_service.py:208-211 | the inner loop over one bill's tags: each tag's entry grows by the amount once per occurrence of that tag, and the grand total by the amount once per tag |
| BillService.CategoryKeys | src/bill_service.py:202-205 | the categories are distinct and are exactly the bills' categories |
| BillService.CategoryLookup | src/bill_service.py:202-205 | each category holds exactly the income and expense of that category's bills |
| BillService.CategoryTotal | src/bill_service.py:202-205 | the categories add up to the total income and total expense |
| BillService.CategorySumsSpec | src/bill_service.py:202-205 | conservation for `by_category`: distinct keys, exactly the bills' categories, each its own bills' sums, together the totals |
| BillService.TagLookup | src/bill_service.py:207-211 | each tag holds its bills' sums, counted once per occurrence of the tag |
| BillService.TagTotal | src/bill_service.py:207-211 | tags stay distinct and add up to each bill's sums counted once per tag |
| BillService.TagSumsSpec | src/bill_service.py:207-211 | conservation for `by_tag`: distinct keys, each tag its bills' sums per occurrence, together every bill counted once per tag, so untagged bills add nothing |
| BillService.Aggregate | src/bill_service.py:186-222 | the loop gives the income and expense totals, net = income − expense, the category and tag sums, the bill count, and the dates echoed; the category sums add up to the totals |
| BillService.GetStatistics | src/bill_service.py:174-222 | the statistics are the aggregation of exactly the bills `fetch_bills` returns for the same filters |
| QwenService.WsRun | qwen_service.py:38 | the length of the maximal whitespace prefix, which is what a greedy `\s*` takes |
| QwenService.HashRun | qwen_service.py:38 | the length of the maximal `#` prefix, which is what a greedy `#+` takes |
| QwenService.HeadingEnd | qwen_service.py:38 | a heading match ends after the leading whitespace, on a `#` or a whitespace character |
| QwenService.StripHeadings | qwen_service.py:38 | the heading pass never lengthens the text |
| QwenService.StripHeadingsNoHash | qwen_service.py:38 | text without `#` is unchanged |
| QwenService.HeadingRemoved | qwen_service.py:38 | at a line start, whitespace, one or more `#` and the following whitespace (newlines included) are removed; the scan resumes at a line start exactly when the removed text ended in a newline |
| QwenService.FindClose | qwen_service.py:41-50 | the non-greedy `(.*?)` stops at the first closing delimiter, and only if no newline comes before it |
| QwenService.FindCloseComplete | qwen_service.py:41-50 | conversely, a closing delimiter with no newline before it is found, at it or at an earlier one |
| QwenService.StripDelimited | qwen_service.py:41-50 | a delimiter pass never lengthens the text |
| QwenService.StripDelimitedNoOpen | qwen_service.py:41-50 | text without the delimiter's first character is unchanged |
| QwenService.StripDelimitedUnwraps | qwen_service.py:41-50 | one-line text wrapped in a delimiter, and holding none of its characters, comes back unwrapped, and the pass goes on with the text after the closing delimiter |
| QwenService.StripEmphasis | qwen_service.py:40-50 | the `**`, `__`, `*` and backtick passes, in that order, never lengthen the text |
| QwenService.NewlinesInRun | qwen_service.py:53 | the newlines counted lie within the leading whitespace run |
| QwenService.PastLastNewline | qwen_service.py:53 | where a match of `\n\s*\n\s*\n` ends: within the whitespace run, just after a newline whenever the run holds one |
| QwenService.CollapseKeepsShortRun | qwen_service.py:53 | a whitespace run with fewer than three newlines keeps its newline count |
| QwenService.CollapseLeavesNoTriple | qwen_service.py:53 | after the blank-line pass no whitespace run holds three newlines |
| QwenService.CollapseFixesNoTriple | qwen_service.py:53 | text with no such run is unchanged |
| QwenService.CollapseIdempotent | qwen_service.py:53 | the blank-line pass is idempotent |
| QwenService.NoTripleBreakSlice | qwen_service.py:53-56 | cutting whitespace from the ends after the blank-line pass cannot create a blank-line run: every slice of a text without one is without one |
| QwenService.TrailingWs | qwen_service.py:56 | the length of the maximal whitespace suffix |
| QwenService.Strip | qwen_service.py:56 | `strip()` returns a slice of its input, cuts only whitespace, and leaves no whitespace at either end |
| QwenService.StripAllSpace | qwen_service.py:56 | all-whitespace text strips to nothing |
| QwenService.CleanQwenOutput | qwen_service.py:24-58 | None and "" are returned as they are; any other text gives a string |
| QwenService.CleanQwenOutputSpec | qwen_service.py:37-58 | the cleaned text has no leading or trailing whitespace and no blank-line run, before and after the final `strip()`; it is the output of the passes in order with whitespace cut from its ends |
| QwenService.CleanPlainText | qwen_service.py:24-58 | plain text with no Markdown characters and no blank-line runs only loses its surrounding whitespace |
| QwenService.RiskLabel | qwen_service.py:172 | 保守型 exactly when score ≤ 3; 稳健型 exactly when 3 < score ≤ 7; 积极型 exactly when score > 7 |
| QwenService.RiskLabelMonotone | qwen_service.py:253 | a higher score never gets a more cautious label (the fallback uses the same rule) |
| QwenService.DescribeTopFunds | qwen_service.py:159-169 | the loop describes the first five funds, or all of them if fewer, numbered from 1, one line each |
| QwenService.FundLinesCount | qwen_service.py:164-169 | with one-line names and details, the description has exactly one line per listed fund |
| QwenService.ChooseExplanation | qwen_service.py:224-235 | no answer or an empty one selects the fallback template; otherwise the cleaned answer is returned |

## Left out

- The SLSQP call `scipy.optimize.minimize` and `np.sqrt` are parameters of the model (`MptSolver.Numerics`). They are foreign numeric code. Nothing is assumed about them; in particular, a solver vector of the wrong length is an escaping error rather than an assumption.
- IEEE floating point: arithmetic is exact `real`. NaN, infinities and rounding are not modelled. The one NaN the code can produce, the 0/0 renormalisation of an all-small weight vector, is an explicit error.
- `Utils.RiskScore`: `round(_, 2)` is not computed. The score is a whole number of tenths, so rounding leaves it unchanged (`Utils.RiskScoreIsTenths`).
- `float()` parsing of the cleaned remainder: only `[sign]digits[.digits]` is read. Exponents, `inf`/`nan`, underscores and non-ASCII digits are treated as parse errors.
- `int` versus `float` results: both are `real`. The type distinction of `float(value)` is not modelled.
- String formatting (`:.2f`, `:.1f`, f-string layout of the currency, percentage and fund lines): only the value and tier choice is modelled. A fund line's formatted details are a parameter of `QwenService.DescribeTopFunds`.
- `.get` defaults in the explanation prompt (missing fund names, weights, amounts): a fund is a record with all three fields.
- The prompt text, the HTTP request to the language model, and the body of the fallback template are not modelled. The answer and the fallback text are parameters of `QwenService.ChooseExplanation`.
- Database access: SQLite cursor execution, SQLAlchemy queries, commits, and the schema set-up. The query runner is a parameter of `BillService.FetchBills`. The period sums of the trends and the 30-day sums of the savings statistics are parameters.
- Bill amounts are stored exactly as `upload_bill` receives them, and SQLite keeps a float as REAL and a string as TEXT. Amounts are `real`, so integer and float amounts are both covered. A non-numeric amount, whose `+=` in `get_statistics` raises `TypeError`, is not modelled.
- JSON decoding of stored tags is a parameter (`BillService.TagDecoder`). Decoded tags are strings.
- Bill flags are the two values the table's CHECK constraint admits, so "every other bill" counts as expense.
- `date.today()` is a parameter.
- Logging and `print` are not modelled.
- `upload_bill`, `update_bill`, `delete_bill`, `fetch_bill`, the dashboard summary, the expense pie, and the streaming and blocking LLM advice routines are not modelled. They are database or network I/O.
- The unused maximum-return weights and volatility in the frontier builder have no effect on the result and are not modelled.
- `MptSolver.FormatPortfolioResult`: the in-place `list.sort` is modelled as a stable insertion sort on a sequence (`MptSolver.SortByWeightDesc`), not as an update of the list object.
- `Services.AddDays` and `Services.SubDays` promise only a valid date. Their values are pinned down by `Services.AddDaysWithinMonth`, `Services.SubDaysWithinMonth`, `Services.AddDaysSplit`, `Services.Day28PlusFour` and `Services.SubDaysSplitLast`.
