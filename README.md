# Personal finance chatbot — a verified model of its analysis engine and router

The chatbot (`project/finance_chatbot.py`) answers free-text money questions
for two kinds of users, students and professionals. A query is lower-cased
and routed by keyword to one of five handlers:

- tax: a progressive estimate over the 2024 single-filer brackets;
- budget: totals, savings rate, the 50/30/20 split, a health grade, and
  spending insights;
- investment: a table of suggestions chosen by user type and risk
  tolerance;
- savings: a six-month emergency-fund target;
- general advice.

Any exception inside a handler becomes a fixed apology. For students,
`adapt_tone` softens two stock phrases and annotates every dollar amount
with a coffee comparison. Profiles live in an in-memory dictionary that can
be created and merge-updated.

The model is in Dafny. There is one module per part of the program:

| file | module | models |
|---|---|---|
| `wrappers.dfy` | `Wrappers` | `Optional`, and the three exceptions a handler can raise (`Outcome` = value or fault) |
| `text.dfy` | `Text` | substring containment (`in` on strings), ASCII `lower()` |
| `profile.dfy` | `Profile` | the `UserProfile` record; the expense dictionary as an association list in insertion order; `dict.get`, item assignment, `dict.update` |
| `tax.dfy` | `TaxEstimator` | `calculate_tax_estimate`: an imperative loop with `break`, proved equal to a recursive specification |
| `budget.dfy` | `BudgetAnalyzer` | `analyze_budget`, `_assess_budget_health` |
| `investment.dfy` | `InvestmentRecommender` | `generate_investment_suggestions` |
| `tone.dfy` | `ToneAdapter` | `adapt_tone`, at character level: `str.replace`, and the regex pass `\$(\d+)` with its inverse |
| `insights.dfy` | `SpendingInsights` | `generate_spending_insights`: an imperative method proved equal to a specification function |
| `chatbot.dfy` | `Chatbot` | keyword routing, the five handlers, the exception guard, and the profile store as a class |
| `scenarios.dfy` | `Scenarios` | the two sample profiles of the demonstration script, and what the model computes for them |

Money is an exact `real`.

Replies are tagged values rather than prose. `Message(text)` carries the
fixed strings the handlers return verbatim. The report variants carry the
figures the handler computed and which tip block it chose.

Handler exceptions are `Failed(fault)` values. `Answer` turns them into the
apology, as `process_query`'s `except` does. Python truthiness is kept:
an income of `0` counts as no income in the tax, budget and investment
guards.

Three failures are reproduced as written, and each ends in the apology:

- a budget query for a user type outside the tone-style table (`KeyError`);
- a non-empty expense map adding up to zero (`ZeroDivisionError`);
- a savings query with neither income nor expenses (`TypeError` on `None * 0.7`).

Two observations from the proofs:

- The `[:3]` cut on the budget insights never drops anything, because there
  are never more than three insights.
- In the keyword lists, `"taxes"` and `"investment"` are redundant: each
  contains a shorter keyword from its own list.

The code's student example owes 1580 on an income of 15000. That is an
effective rate of 1580 / 15000 ≈ 10.53%.

## Model

| member | source | states |
|---|---|---|
| Text.Lower | project/finance_chatbot.py:294 | `query.lower()` keeps the length and lowers each character |
| Text.LowerIdempotent | project/finance_chatbot.py:294 | lower-casing twice is lower-casing once |
| Profile.Lookup | project/finance_chatbot.py:259 | a category has an entry exactly when it is one of the mapping's keys |
| Profile.PutLookup | project/finance_chatbot.py:286 | after `expenses[c] = v`, `c` reads `v` and every other key reads what it did before |
| Profile.PutShape | project/finance_chatbot.py:286 | item assignment adds at most one key, keeps keys unique, and leaves existing keys in their insertion positions |
| Profile.MergeLookup | project/finance_chatbot.py:283-286 | after `dict.update(b)`, keys of `b` read their new amount and all other keys keep their old one |
| Profile.MergeShape | project/finance_chatbot.py:283-286 | `dict.update` keeps the old keys in place, adds only `b`'s keys, and keeps keys unique |
| TaxEstimator.EveryStatusIsSingle | project/finance_chatbot.py:31-46 | every filing status, known or not, uses the single-filer table |
| TaxEstimator.BracketStep | project/finance_chatbot.py:50-64 | one loop step at a bracket whose floor is below the income: the walk from there is that bracket's row (present only when its taxable slice is positive) and tax, followed by the walk from the next bracket |
| TaxEstimator.CalculateTaxEstimate | project/finance_chatbot.py:44-71 | the loop with its early `break` yields exactly the bracket-by-bracket estimate for the requested status, falling back to `single` |
| TaxEstimator.SingleBracketsWellFormed | project/finance_chatbot.py:32-41 | the 2024 table starts at 0, its brackets are contiguous with only the last one unbounded, and its rates lie in [10%, 37%] |
| TaxEstimator.SingleBracketsAscending | project/finance_chatbot.py:32-41 | the bracket floors strictly increase |
| TaxEstimator.BreakdownCoversIncome | project/finance_chatbot.py:50-64 | breakdown rows follow table order, each is positive and within its bracket, and they add up to the income above the first floor and to the total tax |
| TaxEstimator.TaxBetweenRates | project/finance_chatbot.py:54-56 | tax over rows whose rates lie in [lo, hi] lies between lo and hi times the taxed amount |
| TaxEstimator.EstimateProperties | project/finance_chatbot.py:44-71 | for any well-formed table from 0 and any income ≥ 0: after-tax income plus tax is the income, the effective rate is 0 exactly at income 0, and the tax is bounded by the lowest and highest rates |
| TaxEstimator.TaxEstimateProperties | project/finance_chatbot.py:44-71 | for income ≥ 0 and any status: after-tax + tax = income; effective rate 0 iff income 0; rows in ascending bracket order, each within its bracket, summing to the income; 10%·income ≤ tax ≤ 37%·income |
| TaxEstimator.SampleStudentTax | project/finance_chatbot.py:44-71 | an income of 15000 owes 1580 over two brackets |
| BudgetAnalyzer.AssessBudgetHealth | project/finance_chatbot.py:104-113 | the four half-open savings-rate bands, each boundary going to the higher grade; needs, wants and income play no part |
| BudgetAnalyzer.HealthMonotone | project/finance_chatbot.py:104-113 | the grade never falls as the savings rate rises, and depends on the rate alone |
| BudgetAnalyzer.AnalyzeBudget | project/finance_chatbot.py:73-102 | total = sum of all amounts, savings = income − total (possibly negative), rate·income = 100·savings for positive income and 0 otherwise, the recommended split is exactly 50% / 30% / 20% of income (so it sums to income), needs and wants are whitelist sums, and the grade is taken from the rate |
| BudgetAnalyzer.ListedPlusOutside | project/finance_chatbot.py:75-91 | a whitelist sum plus the total of unlisted entries is the whole total |
| BudgetAnalyzer.TwoListsWithinTotal | project/finance_chatbot.py:87-91 | for disjoint whitelists: their sums plus unlisted spending make the total, they never exceed it with non-negative amounts, and they equal it when every key is listed |
| BudgetAnalyzer.WhitelistsDistinct | project/finance_chatbot.py:87-88 | the needs and wants whitelists share no category |
| BudgetAnalyzer.NeedsWantsWithinTotal | project/finance_chatbot.py:73-102 | needs + wants + unlisted = total expenses; needs + wants ≤ total for non-negative amounts; equal when every category is listed |
| InvestmentRecommender.GenerateInvestmentSuggestions | project/finance_chatbot.py:115-172 | students get `[min(funds, 5000), 0.7·funds]`; others with risk "low" get bonds 0.4 then dividends 0.6, and with "high" get growth 0.7 then international 0.3, both summing to the funds; the list is empty exactly for a non-student with any other risk; with non-negative funds, every allocation lies in [0, funds] |
| ToneAdapter.Replace | project/finance_chatbot.py:199-200 | `str.replace` leaves a text without the pattern unchanged and keeps a first character that does not start the pattern |
| ToneAdapter.ReplaceRemoves | project/finance_chatbot.py:199-200 | under side conditions on pattern and replacement, no occurrence of the pattern survives the replacement |
| ToneAdapter.ReplacePreserves | project/finance_chatbot.py:199-200 | a replacement creates no occurrence of a text absent from its input (under side conditions on the first characters), so the second replacement cannot bring back "You should" |
| ToneAdapter.DigitRun | project/finance_chatbot.py:201 | `\d+` matches the longest all-digit prefix |
| ToneAdapter.Coffee | project/finance_chatbot.py:201 | the regex pass keeps the first character of its input |
| ToneAdapter.CoffeePreserves | project/finance_chatbot.py:201 | the regex pass creates no occurrence of a `$`-free text absent from its input |
| ToneAdapter.StripCoffeeInverse | project/finance_chatbot.py:201 | removing the annotations after the pass gives back its input exactly: nothing else changes |
| ToneAdapter.CoffeeAnnotatesAt | project/finance_chatbot.py:201 | in the output, every `$` followed by digits is followed by the annotation restating those maximal digits |
| ToneAdapter.AdaptTone | project/finance_chatbot.py:193-203 | any user type other than "student" gets the message unchanged |
| ToneAdapter.AdaptToneStudent | project/finance_chatbot.py:193-203 | for a student: neither "You should" nor "It is recommended" remains, every dollar amount carries its coffee annotation, and removing the annotations gives the phrase-replaced message |
| ToneAdapter.AdaptToneKeepsFirst | project/finance_chatbot.py:193-203 | a message starting with neither phrase keeps its first character |
| ToneAdapter.ShortMessageKeepsPhrases | project/finance_chatbot.py:199-200 | a message shorter than the phrases is not changed by the replacements |
| ToneAdapter.AdaptToneThousandsSeparator | project/finance_chatbot.py:201 | for a student, "$2,500" becomes exactly `$2 (that\'s like 2 cups of coffee! ☕),500`: only "$2" is annotated, and the raw template's backslash is kept |
| SpendingInsights.TopIndex | project/finance_chatbot.py:238-241 | the head of the stable descending sort: the largest amount, and the earliest-inserted on ties |
| SpendingInsights.LargestExpense | project/finance_chatbot.py:239-242 | a single pass that moves only to a strictly larger amount ends on the head of the stable descending sort |
| SpendingInsights.GenerateSpendingInsights | project/finance_chatbot.py:233-262 | the scan-and-append method produces exactly the specified insights, including the division-by-zero fault |
| SpendingInsights.FirstMaxUnique | project/finance_chatbot.py:238-241 | only one entry can head the stable sort |
| SpendingInsights.TopInsight | project/finance_chatbot.py:238-244 | with a non-zero total, the first insight names the top category, its amount, and its share of the total in percent |
| SpendingInsights.InsightsEdgeCases | project/finance_chatbot.py:233-262 | an empty mapping gives no insights; a non-empty one adding up to zero fails with a division by zero |
| SpendingInsights.InsightsTail | project/finance_chatbot.py:246-262 | at most three insights; the dining tip and the housing warning never both appear; the subscription tip appears iff subscriptions exceed 50 |
| SpendingInsights.HousingWarningWhen | project/finance_chatbot.py:252-255 | the housing warning appears iff the top category is rent at more than 30% |
| SpendingInsights.DiningTipWhen | project/finance_chatbot.py:246-251 | a top category of dining out or entertainment gives the cook-at-home tip to students and the meal-prep tip to everyone else |
| SpendingInsights.FollowUpFacts | project/finance_chatbot.py:246-255 | when each follow-up tip is chosen, from the category, its share and the user type |
| Chatbot.Classify | project/finance_chatbot.py:294-310 | on the lower-cased query, the first matching list wins in the order tax, budget, investment, savings (each arm stated as an iff), and a query matching none is general |
| Chatbot.ClassifyIgnoresCase | project/finance_chatbot.py:294 | a query and its lower-cased form are routed alike |
| Chatbot.RedundantKeywords | project/finance_chatbot.py:297-303 | the tax list matches iff "tax" or "federal" occurs, and the investment list iff "invest" or "portfolio" occurs |
| Chatbot.HandleTaxQuery | project/finance_chatbot.py:316-347 | no income or a zero income gives the fixed request; otherwise the single-filer estimate of the income, with student tips only for students |
| Chatbot.TaxReplyProperties | project/finance_chatbot.py:316-321 | the tax reply's tax and after-tax income add up to the income; the effective rate is 0 iff income ≤ 0; a negative income owes nothing; for income ≥ 0 the tax is 10%–37% of it, over ascending brackets that cover it |
| Chatbot.HandleBudgetQuery | project/finance_chatbot.py:349-362 | the fixed request exactly when income is falsy or there are no expenses; with data, a user type in the tone table and a non-zero total the reply is exactly the report of the budget analysis, the tone-table greeting, the closing remark for the grade and all the insights; any report carries these |
| Chatbot.BudgetReportKeepsAllInsights | project/finance_chatbot.py:358-359 | the `[:3]` cut keeps every insight, and there are at most three |
| Chatbot.BudgetRemark | project/finance_chatbot.py:225-229 | the summary closes with praise iff the savings rate is at least 20%, and with a nudge iff it is below 5% |
| Chatbot.InvestableFunds | project/finance_chatbot.py:369-371 | the funds are never negative; they are zero iff income does not exceed the expenses (or the 80% stand-in); with no expenses they are 16% of a non-negative income; otherwise 80% of the surplus |
| Chatbot.HandleInvestmentQuery | project/finance_chatbot.py:364-395 | the fixed request exactly when income is falsy; funds under 100 give the tone-adapted emergency-fund message; funds of 100 or more give exactly the report of those funds with the suggestion table's entries, every allocation within the funds |
| Chatbot.EmergencyFundFirstStart | project/finance_chatbot.py:372-376 | the adapted emergency-fund message starts with "F", unlike every message beginning with "I" |
| Chatbot.EmergencyFundTarget | project/finance_chatbot.py:399 | six months of expenses, or 4.2 × income with none recorded; it fails with a missing income exactly when there are neither expenses nor income |
| Chatbot.HandleSavingsQuery | project/finance_chatbot.py:397-431 | fails exactly when there are neither expenses nor income; otherwise the emergency-fund target with the user type's tips |
| Chatbot.HandleGeneralQuery | project/finance_chatbot.py:433-460 | student advice for students, professional advice for every other user type |
| Chatbot.FaultCauses | project/finance_chatbot.py:288-314 | a handler fails exactly for: a budget query (income and expenses present) whose user type has no greeting (`KeyError`) or whose expenses total zero (division by zero), or a savings query with neither expenses nor income |
| Chatbot.ApologyExactlyOnFault | project/finance_chatbot.py:296-314 | the reply is the apology iff the chosen handler raised |
| Chatbot.ZeroIncomeCountsAsMissing | project/finance_chatbot.py:316-399 | an income of 0 gets the tax, budget and investment requests, while savings computes a target of 0 from it |
| Chatbot.UnknownUserTypeBudgetApology | project/finance_chatbot.py:205-211 | a budget query from a user type outside the tone-style table ends in the apology |
| Chatbot.AllZeroExpensesApology | project/finance_chatbot.py:236-243 | a budget query whose expenses add up to zero ends in the apology |
| Chatbot.SavingsWithoutDataApology | project/finance_chatbot.py:397-399 | a savings query with neither income nor expenses ends in the apology |
| Chatbot.FinanceChatbot.constructor | project/finance_chatbot.py:267-271 | the store starts empty |
| Chatbot.FinanceChatbot.CreateUserProfile | project/finance_chatbot.py:273-281 | stores the profile under the id, replacing any earlier one, with empty expenses and goals and a "moderate" risk tolerance by default |
| Chatbot.FinanceChatbot.UpdateUserExpenses | project/finance_chatbot.py:283-286 | merges the new amounts into a known user's expenses and changes nothing for an unknown id; keys stay unique |
| Chatbot.BudgetReplySplitsTotal | project/finance_chatbot.py:73-102 | for a mapping with unique keys, a budget report's needs, wants and unlisted spending add up to its total expenses |
| Chatbot.FinanceChatbot.ProcessQuery | project/finance_chatbot.py:288-314 | an unknown id gets the create-your-profile text; otherwise the routed answer, faults becoming the apology; by the store's unique-keys invariant, a budget report's needs, wants and unlisted spending add up to its total |
| Scenarios.TaxQueryRoutes | project/finance_chatbot.py:297-298 | "How much will I pay in taxes?" goes to the tax handler |
| Scenarios.StudentTaxReply | project/finance_chatbot.py:316-347 | the sample student owes 1580 and keeps 13420, over two brackets, with student tips |
| Scenarios.ProfessionalInvestmentReply | project/finance_chatbot.py:364-395 | the sample professional invests 57600 (annual income less monthly expenses, at 80%), split 40320 / 17280 |
| Scenarios.StudentInsights | project/finance_chatbot.py:233-262 | the sample student's top expense is rent at 600, which draws the housing warning, and nothing else |
| Scenarios.ProfessionalInsights | project/finance_chatbot.py:233-262 | the sample professional gets rent at 50%, the housing warning and the subscription tip |

## Left out

- Logging: the configuration and the error log call. Only the fact that an exception yields the apology is kept.
- The `main()` demonstration and its printing. Its two sample profiles appear as constants in `Scenarios`.
- The composed prose: emoji (the coffee annotation's `☕` and the greeting's emoji are rendered as the intended characters, so "exactly" in the rows above holds up to how the source file's emoji bytes are decoded), number formatting (`:,.2f`, `:,.0f`, `.title()`, the `rate*100` bracket labels and the range strings), and the loop that joins insight lines into the budget response. Replies are tagged values instead.
- `adapt_tone` on composed text. The handlers pass their composed reports and each insight line through `adapt_tone`. Because the prose is not modelled, that pass is modelled only where the text is fixed: the emergency-fund message.
- `get_user_profile_summary` is pure formatting and is not part of this model.
- Unused state: `conversation_history`, the `tone_styles` entries other than the greeting, and the unused imports.
- Floating point. Amounts are exact reals, with no rounding, NaN or infinity. The unbounded top bracket is a `Bound` with no upper value.
- Text.Lower: maps only ASCII letters, whereas Python's `lower()` also lowers non-ASCII letters.
- ToneAdapter.DigitRun: recognises only ASCII digits, whereas the regex `\d` also matches other Unicode decimal digits.
- SpendingInsights.LargestExpense: finds the head of the descending sort with a single scan instead of sorting. Only the head of the sorted list is ever read.
- Aliasing. Profiles are values in the store's map. The source stores the very object it returns, and keeps the caller's expense dictionary by reference, so a later mutation through either is shared. The model does not share them.
- Chatbot.FinanceChatbot.CreateUserProfile: does not model keyword arguments the dataclass does not accept (a `TypeError`), nor an explicit `risk_tolerance=None`.
- InvestmentRecommender.GenerateInvestmentSuggestions: the `reason`, `risk_level` and `expected_return` texts of each suggestion are constant lookups on the instrument, with no contract of their own.
