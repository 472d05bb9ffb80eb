# TravelGenie logic in Dafny

TravelGenie is a React travel-planning site for India. Almost all of it is
view code. This project models the logic inside its components and proves
properties of that logic:

- the trip budget calculator: rate tables, category totals, cost per person;
- the group panel: the expense split and vote status;
- the live budget tracker: totals, over- and under-budget lists, status colours;
- ratings and reviews: average, star strip, filtered and sorted lists;
- the itinerary dialog: the built-in plans and their budget strings, the
  offline page and its file name, and the replan state;
- the two rule-based chat assistants and their message log;
- the signed-in session;
- the feature carousel;
- the weather panel;
- the crowd predictor;
- the header's initials and document list;
- the sign-up form.

Each component is one Dafny module:

| file | module | component |
|---|---|---|
| `budget_calculator.dfy` | `BudgetCalculator` | `BudgetCalculator.jsx` |
| `group_coordination.dfy` | `GroupCoordination` | `GroupCoordination.tsx` |
| `budget_analyzer.dfy` | `BudgetAnalyzer` | `DynamicBudgetAnalyzer.tsx` |
| `reviews.dfy` | `Reviews` | `RatingsReviewsModal.tsx` |
| `itinerary.dfy` | `Itinerary` | `ItineraryModal.tsx` and the destination choice in `BudgetCalculator.jsx` |
| `chatbot_ts.dfy`, `chatbot_jsx.dfy` | `ChatbotTs`, `ChatbotJsx` | the reply chains of `AIChatbot.tsx` and `AIChatbot.jsx` |
| `keyword_rules.dfy`, `chat_log.dfy` | `KeywordRules`, `ChatLog` | first-match rules and the message log, shared by both assistants |
| `user_context.dfy` | `UserContext` | `UserContext.tsx` |
| `features.dfy` | `Features` | `Features.jsx` |
| `weather.dfy` | `WeatherAI` | `WeatherAI.jsx` |
| `crowd.dfy` | `CrowdPredictor` | `CrowdPredictor.tsx` |
| `header.dfy` | `Header` | `Header.tsx` |
| `welcome.dfy` | `WelcomePage` | `WelcomePage.jsx` |

`text.dfy` (`Text`) holds the string helpers: ASCII case mapping, blank test,
substring test and join. `wrappers.dfy` holds `Option` and `Result`.

Code that only computes values is written as functions and lemmas. The
components that update state in place are classes whose methods carry
`modifies` clauses:

- the chat log (`ChatLog.Chat`);
- the session (`UserContext.Session`);
- the carousel (`Features.Carousel`);
- the weather search (`WeatherAI.WeatherPanel`);
- the document list (`Header.DocumentShelf`);
- the sign-up form (`WelcomePage.WelcomeForm`);
- the replan state (`Itinerary.ItineraryDialog`).

The expense split and the star strip loop the way the component does. The
review sort is a library call (`Array.prototype.sort` with a comparator) in the
component; here it is an insertion sort run in place on an array copy, and only
what the call promises is stated of it: a permutation, ordered for the mode.

Delayed updates (`setTimeout`) become a separate explicit step. The chat
assistant's reply is `Chat.Deliver`, the city search completes in
`WeatherPanel.FinishSearch`, and the end of a replan is
`ItineraryDialog.FinishReplan`. The persisted browser copy of the session is
the `stored` field of `Session`. The clock reading that names a new user is a
parameter.

## Model

| member | source | states |
|---|---|---|
| BudgetCalculator.CustomRate | src/components/BudgetCalculator.jsx:36-46 | `parseInt(x) \|\| fallback`: a parsed non-zero value (negative included) is kept; a failed parse or 0 gives the fallback |
| BudgetCalculator.Resolve | src/components/BudgetCalculator.jsx:48-49 | `table[key] \|\| fallback`: a key present with a non-zero rate gives that rate; a key present with rate 0 and a missing key both give the fallback |
| BudgetCalculator.BaseAccommodation | src/components/BudgetCalculator.jsx:27-48 | the nightly rate resolved from the accommodation table is never 0 |
| BudgetCalculator.BaseTransport | src/components/BudgetCalculator.jsx:38-49 | the transport rate resolved from its table is never 0 |
| BudgetCalculator.FoodPerDay | src/components/BudgetCalculator.jsx:50 | food is one of 800, 1500, 2500, 4000, and 4000 exactly for tiers other than budget, mid and luxury |
| BudgetCalculator.Estimate | src/components/BudgetCalculator.jsx:53-58 | the grand total is people × (transport rate + days × (stay + food + activities per day)); without transport it is days × people × that daily rate; CategoriesSum pins each category and the sum |
| BudgetCalculator.PerPerson | src/components/BudgetCalculator.jsx:220 | `Math.round(total / people)`: the result r satisfies 2·r·people ≤ 2·total + people < 2·r·people + 2·people (nearest, halves up) |
| BudgetCalculator.RatesAreNonNegative | src/components/BudgetCalculator.jsx:27-49 | with non-negative custom inputs both resolved rates are positive |
| BudgetCalculator.TotalsNonNegative | src/components/BudgetCalculator.jsx:53-58 | within the slider ranges (3–14 days, 1–8 people) and with non-negative custom inputs every total is non-negative |
| BudgetCalculator.GrandTotalMonotone | src/components/BudgetCalculator.jsx:53-58 | more days or more people never lower the grand total (non-negative custom inputs) |
| BudgetCalculator.TransportIgnoresDays | src/components/BudgetCalculator.jsx:54 | the transport total does not depend on the number of days |
| BudgetCalculator.CategoriesSum | src/components/BudgetCalculator.jsx:53-58 | stay, food and activities are rate × days × people, transport is rate × people, and the grand total is exactly the sum of the four |
| BudgetCalculator.DefaultEstimate | src/components/BudgetCalculator.jsx:13-16 | the opening state (7 days, 2 people, mid, train) gives 49000 / 2400 / 21000 / 14000, total 86400, 43200 each |
| BudgetCalculator.CustomStayRate | src/components/BudgetCalculator.jsx:36 | a custom rate of 2000 is used; an empty or zero one falls back to 3500; a negative one is kept; a custom rate does not affect an unknown tier |
| GroupCoordination.SumAmounts | src/components/GroupCoordination.tsx:134 | the reduce loop yields the total of all expense amounts |
| GroupCoordination.ZeroEntries | src/components/GroupCoordination.tsx:137-139 | one entry per roster id, each with paid = owes = share = 0 |
| GroupCoordination.AddShares | src/components/GroupCoordination.tsx:145-147 | each split id in turn gains one part in its share (duplicates count each time); an id without an entry is reported as the error |
| GroupCoordination.AddExpense | src/components/GroupCoordination.tsx:141-148 | the payer gains the amount and the split ids their parts; succeeds exactly when payer and split ids all have entries |
| GroupCoordination.SettleOwes | src/components/GroupCoordination.tsx:150-153 | every entry gets owes = share − paid; nothing else changes |
| GroupCoordination.CalculateExpenseSplit | src/components/GroupCoordination.tsx:133-156 | succeeds exactly when every payer and split id is a member; then the total is the sum of the amounts and each member's entry is (paid, share − paid, share) as defined by `PaidBy` and `ShareOf`; otherwise the error names a non-member |
| GroupCoordination.Conservation | src/components/GroupCoordination.tsx:133-156 | with known ids, a duplicate-free roster and no empty split list, paid totals and shares each sum to the total expenses and the balances sum to exactly 0 |
| GroupCoordination.PartsAddUp | src/components/GroupCoordination.tsx:142 | the equal parts of an expense add back up to its amount |
| GroupCoordination.TallyOnce | src/components/GroupCoordination.tsx:145-147 | in a duplicate-free list an id is tallied exactly once or not at all |
| GroupCoordination.BalancesPermutationInvariant | src/components/GroupCoordination.tsx:141-153 | reordering the expense list leaves every member's paid, share and owes unchanged |
| GroupCoordination.UntouchedMember | src/components/GroupCoordination.tsx:137-153 | a member in no expense keeps paid = share = owes = 0 |
| GroupCoordination.LabelOf | src/components/GroupCoordination.tsx:335-361 | "is owed" iff owes < 0, "owes" iff owes > 0, "settled" iff owes = 0 |
| GroupCoordination.MockBalances | src/components/GroupCoordination.tsx:82-110 | the demo expenses total 13000 and give owes −1450, −3650, 2150, 2950 to members 1–4 |
| GroupCoordination.MockKnown | src/components/GroupCoordination.tsx:47-110 | every demo payer and split id is a demo member |
| GroupCoordination.YesVotes | src/components/GroupCoordination.tsx:121 | the yes count is at most the number of votes |
| GroupCoordination.VotePercentage | src/components/GroupCoordination.tsx:120-124 | the percentage lies in [0, 100] and is 0 with no votes |
| GroupCoordination.PercentThreshold | src/components/GroupCoordination.tsx:123 | reaching a percentage c is the integer comparison yes·100 ≥ c·total |
| GroupCoordination.StatusOf | src/components/GroupCoordination.tsx:126-131 | `getVoteStatus`: winning iff 4·yes ≥ 3·total, leading iff 2·yes ≥ total but below that, losing otherwise or with no votes (partner: the percentage thresholds via PercentThreshold) |
| GroupCoordination.MockVotes | src/components/GroupCoordination.tsx:54-79 | the sunrise vote (2 of 3) is leading, the hotel upgrade (1 of 4) losing, an empty vote losing |
| BudgetAnalyzer.TotalAllocated | src/components/DynamicBudgetAnalyzer.tsx:84 | the reduce over the allocations is non-negative when every allocation is; TotalsAppend and OverrunPartition relate it to the lists |
| BudgetAnalyzer.TotalSpent | src/components/DynamicBudgetAnalyzer.tsx:85 | the reduce over the spending is non-negative when every amount is; TotalsAppend and OverrunPartition relate it to the lists |
| BudgetAnalyzer.TotalsAppend | src/components/DynamicBudgetAnalyzer.tsx:84-85 | both totals of a concatenation are the sums of the parts' totals: each category is counted once |
| BudgetAnalyzer.Remaining | src/components/DynamicBudgetAnalyzer.tsx:86 | non-negative iff spending is within the total budget, and shown (StandingOf) as that many rupees left or over |
| BudgetAnalyzer.StandingOf | src/components/DynamicBudgetAnalyzer.tsx:128-134 | the remaining amount shows as "left" iff it is ≥ 0, with its absolute value |
| BudgetAnalyzer.FiltersSelect | src/components/DynamicBudgetAnalyzer.tsx:87-88 | the over list holds exactly the categories with spent > allocated, as often as the list does; likewise the under list for spent < allocated |
| BudgetAnalyzer.FiltersKeepOrder | src/components/DynamicBudgetAnalyzer.tsx:87-88 | both lists keep list order |
| BudgetAnalyzer.FiltersDisjoint | src/components/DynamicBudgetAnalyzer.tsx:87-88 | no category is in both lists; one with spent = allocated is in neither |
| BudgetAnalyzer.OverrunPartition | src/components/DynamicBudgetAnalyzer.tsx:84-88 | total spent − total allocated = overrun of the over list (≥ 0) + slack of the under list (≤ 0) |
| BudgetAnalyzer.Percentage | src/components/DynamicBudgetAnalyzer.tsx:91 | spent / allocated × 100 is finite iff allocated ≠ 0; Infinity iff allocated = 0 < spent; NaN iff both are 0 |
| BudgetAnalyzer.BudgetStatus | src/components/DynamicBudgetAnalyzer.tsx:90-95 | `getBudgetStatus`: for allocated > 0, over iff spent > allocated, warning iff 80·allocated < 100·spent ≤ 100·allocated, good iff 100·spent ≤ 80·allocated; with nothing allocated, over iff anything is spent (Infinity), good otherwise (NaN) |
| BudgetAnalyzer.ProgressColor | src/components/DynamicBudgetAnalyzer.tsx:97-102 | `getProgressColor`: red iff the status is over, orange iff warning, green iff good |
| BudgetAnalyzer.OverStatusIsOverList | src/components/DynamicBudgetAnalyzer.tsx:87-95 | for non-negative allocations, status over holds exactly for members of the over list |
| BudgetAnalyzer.ProgressWidth | src/components/DynamicBudgetAnalyzer.tsx:173-176 | `Math.min(percentage, 100)`: a finite percentage below 100 is the width itself; 100 or more, and Infinity, give 100; NaN and -Infinity pass through; never above 100 |
| BudgetAnalyzer.FullBar | src/components/DynamicBudgetAnalyzer.tsx:173-176 | for allocated > 0 the bar is full iff spent ≥ allocated |
| BudgetAnalyzer.PotentialSavings | src/components/DynamicBudgetAnalyzer.tsx:104-106 | the estimate is a multiple of 2000 between 0 and 2000 × the category count |
| BudgetAnalyzer.SavingsCountsSuggestions | src/components/DynamicBudgetAnalyzer.tsx:104-106 | the estimate is 2000 × the number of categories with a suggestion |
| BudgetAnalyzer.MockTracker | src/components/DynamicBudgetAnalyzer.tsx:30-88 | the demo categories give allocated 50000, spent 44900, 5100 left of the default budget, only Transportation over (by 2200), four under, savings 10000 |
| Reviews.AverageRating | src/components/RatingsReviewsModal.tsx:131-133 | defined iff there is a review, and then between 1 and 5 |
| Reviews.AverageTimesTotal | src/components/RatingsReviewsModal.tsx:132-133 | average × total gives back the weighted sum |
| Reviews.MockStatistics | src/components/RatingsReviewsModal.tsx:119-133 | the demo breakdown has 100 reviews averaging 4.54 |
| Reviews.RenderStars | src/components/RatingsReviewsModal.tsx:135-149 | the loop yields exactly 5 icons, icon i being full iff i ≤ rating, half iff i − 0.5 ≤ rating < i, empty otherwise |
| Reviews.StarsShape | src/components/RatingsReviewsModal.tsx:139-147 | full icons come first, then at most one half icon, then empty ones |
| Reviews.WholeRatingStars | src/components/RatingsReviewsModal.tsx:139-147 | a whole rating n shows n full icons and no half icon |
| Reviews.KeepSelects | src/components/RatingsReviewsModal.tsx:155 | `filter` keeps each passing review as often as the list has it, and nothing else |
| Reviews.KeepKeepsOrder | src/components/RatingsReviewsModal.tsx:164 | `filter` keeps list order |
| Reviews.SelectedSubset | src/components/RatingsReviewsModal.tsx:151-165 | every mode selects a sub-multiset; a trip filter keeps only that trip type; helpful and photo modes keep only reviews passing their test |
| Reviews.AllShowsEverything | src/components/RatingsReviewsModal.tsx:159-160 | the all and recent modes without a trip filter drop nothing |
| Reviews.LikesOrder | src/components/RatingsReviewsModal.tsx:162-166 | outside the recent mode the sort order is likes, largest first |
| Reviews.InsertionSort | src/components/RatingsReviewsModal.tsx:160-166 | stands in for the library sort call: the array ends as a permutation of its old contents, ordered for the mode |
| Reviews.FilteredReviews | src/components/RatingsReviewsModal.tsx:151-167 | the photo mode returns the selection in list order; every other mode returns a permutation of the selection in sort order; the source list is not modified |
| Reviews.MockWithPhotos | src/components/RatingsReviewsModal.tsx:51-117 | the photo mode keeps reviews 1, 2, 4, 5 of the demo list |
| Reviews.MockMostHelpful | src/components/RatingsReviewsModal.tsx:51-117 | the helpful mode selects reviews 1, 2, 4, 5 |
| Reviews.MockCouples | src/components/RatingsReviewsModal.tsx:51-117 | the couple filter selects reviews 1 and 5 |
| Reviews.MockOrders | src/components/RatingsReviewsModal.tsx:51-117 | by likes the demo reads 4, 1, 5, 2, 3, and the list as given is not in that order |
| Reviews.DateBefore | src/components/RatingsReviewsModal.tsx:159-160 | ISO dates that first differ at one character compare by that character |
| Itinerary.Lookup | src/components/ItineraryModal.tsx:309 | a known destination gives its plan; any other string gives the Kerala Backwaters plan |
| Itinerary.DialogDestination | src/components/BudgetCalculator.jsx:238-240 | the dialog key is always a table key; Rajasthan Palaces iff "rajasthan", Himalayan Trek iff "himachal" |
| Itinerary.ParseAmount | src/components/ItineraryModal.tsx:949 | the parse fails (NaN) exactly when the string has no digit; ParseDecimal and ParseIgnoresDecoration give its value |
| Itinerary.DigitsOnly | src/components/ItineraryModal.tsx:949 | deleting non-digits leaves only digits and never lengthens the string |
| Itinerary.ParseDecimal | src/components/ItineraryModal.tsx:949 | reading back a number's decimal digits gives the number |
| Itinerary.ParseIgnoresDecoration | src/components/ItineraryModal.tsx:949 | a non-digit prefix such as the rupee sign does not change the parsed amount |
| Itinerary.DigitsOnlyAppend | src/components/ItineraryModal.tsx:949 | deleting non-digits keeps the digit order: it distributes over concatenation |
| Itinerary.GroupedRupees | src/components/ItineraryModal.tsx:949 | a rupee amount with a thousands comma parses to the digits on both sides read as one number |
| Itinerary.Rupees18500 | src/components/ItineraryModal.tsx:66 | "₹18,500" parses to 18500 |
| Itinerary.KeralaConsistent | src/components/ItineraryModal.tsx:63-166 | the Kerala plan's days add up to their totals (1600, 5700) and its breakdown to its budget 18500 |
| Itinerary.RajasthanConsistent | src/components/ItineraryModal.tsx:176-243 | the Rajasthan day adds up to 800 and the breakdown to 42000 |
| Itinerary.HimalayaConsistent | src/components/ItineraryModal.tsx:252-298 | the Himalayan day adds up to 1500 and the breakdown to 28000 |
| Itinerary.LookupConsistent | src/components/ItineraryModal.tsx:61-309 | every plan the lookup can return is consistent |
| Itinerary.KeralaBreakdown | src/components/ItineraryModal.tsx:154-159 | the breakdown sums to the budget, and the tracker receives 18500 |
| Itinerary.Underscored | src/components/ItineraryModal.tsx:395 | the rewritten title has no whitespace and is no longer than the title |
| Itinerary.UnderscoredJoin | src/components/ItineraryModal.tsx:395 | a word, a whitespace run, then the rest becomes the word, one "_" and the rewritten rest |
| Itinerary.UnderscoredKeepsWords | src/components/ItineraryModal.tsx:395 | a title without whitespace is unchanged |
| Itinerary.UnderscoredIdempotent | src/components/ItineraryModal.tsx:395 | rewriting twice is rewriting once |
| Itinerary.OfflineFileName | src/components/ItineraryModal.tsx:395 | the file name has no whitespace |
| Itinerary.FileNameOfWords | src/components/ItineraryModal.tsx:395 | words joined by single spaces become the words joined by "_" plus "_Offline_Itinerary.html" |
| Itinerary.ReadDaysInverse | src/components/ItineraryModal.tsx:360-373 | the day blocks read back as the days in order, one block per day and one per activity |
| Itinerary.OfflineDocument | src/components/ItineraryModal.tsx:344-386 | the page is the heading, the budget lines, the day blocks, the emergency block and one line per document, in that order; DocumentDayBlocks reads the day blocks back |
| Itinerary.DocumentDayBlocks | src/components/ItineraryModal.tsx:344-386 | in the page the day blocks follow the heading and budget, read back as the plan's days, and are followed by the emergency block and one line per document |
| Itinerary.ItineraryDialog.constructor | src/components/ItineraryModal.tsx:312-316 | the dialog shows the looked-up plan and starts not replanning, with no reason |
| Itinerary.ItineraryDialog.HandleReplan | src/components/ItineraryModal.tsx:318-320 | replanning starts and the reason is recorded; the plan is a constant and cannot change |
| Itinerary.ItineraryDialog.FinishReplan | src/components/ItineraryModal.tsx:323-325 | replanning ends and the reason is kept |
| KeywordRules.FirstMatch | src/components/AIChatbot.tsx:53-83 | the answer is the fallback or the reply of one of the rules |
| KeywordRules.MatchesFrom | src/components/AIChatbot.tsx:56 | the `\|\|` chain of one rule holds iff some keyword occurs in the text |
| KeywordRules.FirstMatchWins | src/components/AIChatbot.tsx:56-82 | a matching rule with no earlier match gives the answer |
| KeywordRules.NoMatchFallback | src/components/AIChatbot.tsx:80-82 | with no matching rule the fallback answers |
| KeywordRules.ReplyHasWinningRule | src/components/AIChatbot.tsx:56-82 | any other answer comes from a matching rule that no earlier rule pre-empts |
| KeywordRules.SomeMatchAnswers | src/components/AIChatbot.tsx:56-82 | when no rule's reply is the fallback, a matching rule keeps the fallback from answering |
| KeywordRules.FallbackIffNoMatch | src/components/AIChatbot.tsx:56-82 | when no rule's reply is the fallback, the fallback answers exactly when no rule matches |
| KeywordRules.FirstMatchWinsAll | src/components/AIChatbot.tsx:56-82 | every matching rule with no earlier match gives the answer |
| ChatbotTs.BotResponse | src/components/AIChatbot.tsx:53-83 | the first of the 12 rules with a keyword in the lower-cased message answers; the default answers exactly when no rule has one |
| ChatbotTs.ReplyIgnoresCase | src/components/AIChatbot.tsx:54 | upper-casing the message does not change the reply |
| ChatbotTs.KeralaBudget | src/components/AIChatbot.tsx:56-58 | "Kerala budget" gets the budget reply: "budget" is checked before "kerala" |
| ChatbotTs.KeralaPlaces | src/components/AIChatbot.tsx:56-57 | "kerala places" gets the destinations reply via "place" |
| ChatbotTs.Airplane | src/components/AIChatbot.tsx:60 | "airplane" gets the itinerary reply via the substring "plan" |
| ChatbotTs.Holiday | src/components/AIChatbot.tsx:76 | "holiday" gets the documents reply via the substring "id" |
| ChatbotTs.NoKeyword | src/components/AIChatbot.tsx:80-82 | "hey" gets the default reply |
| ChatbotJsx.BotResponse | src/components/AIChatbot.jsx:46-64 | the first of the 6 rules with a keyword in the lower-cased message answers; the default answers exactly when no rule has one |
| ChatbotJsx.ReplyIgnoresCase | src/components/AIChatbot.jsx:47 | upper-casing the message does not change the reply |
| ChatbotJsx.KeralaFirst | src/components/AIChatbot.jsx:49-50 | any message containing "kerala" gets the Kerala reply, whatever else it holds |
| ChatbotJsx.KeralaBudget | src/components/AIChatbot.jsx:49-54 | "kerala budget" gets the Kerala reply, unlike the TypeScript assistant |
| ChatbotJsx.GoaBudget | src/components/AIChatbot.jsx:53-56 | "goa budget" gets the budget reply: "budget" is checked before "goa" |
| ChatbotJsx.Helpful | src/components/AIChatbot.jsx:59-60 | "helpful" gets the help reply via the substring "help" |
| ChatLog.CountsSnoc | src/components/AIChatbot.tsx:38-48 | appending a message adds one to its kind's count and nothing to the other |
| ChatLog.Chat.constructor | src/components/AIChatbot.tsx:18-26 | the log starts with exactly the greeting, an empty input and nothing pending |
| ChatLog.Chat.Type | src/components/AIChatbot.tsx:150 | typing sets the input and leaves the log alone |
| ChatLog.Chat.Send | src/components/AIChatbot.tsx:28-40 | a blank or whitespace-only input changes nothing; otherwise the untrimmed input is appended to the log, queued for a reply and cleared; user messages = replies + pending |
| ChatLog.Chat.Deliver | src/components/AIChatbot.tsx:41-50 | the reply to the oldest pending message is appended; earlier messages are untouched |
| ChatLog.Conversation | src/components/AIChatbot.tsx:18-50 | with either assistant's reply function, a blank send changes nothing and a message then yields exactly greeting, the message, its reply |
| UserContext.OrElse | src/components/UserContext.tsx:27-29 | `a \|\| b` on a string: a present non-empty value wins, otherwise b |
| UserContext.NewUser | src/components/UserContext.tsx:25-34 | the new user is logged in; id, name, email default as in the source; phone, style and image are copied; a fresh id is never empty |
| UserContext.Merge | src/components/UserContext.tsx:46 | `{ ...user, ...userData }`: an empty patch changes nothing; MergeTakesPatch and MergeKeepsRest state it field by field |
| UserContext.MergeTakesPatch | src/components/UserContext.tsx:46 | every field present in the patch (id and login flag included) replaces the user's |
| UserContext.MergeKeepsRest | src/components/UserContext.tsx:46 | every field missing from the patch keeps its value |
| UserContext.MergeIdempotent | src/components/UserContext.tsx:46 | applying a patch twice is applying it once |
| UserContext.MergeThen | src/components/UserContext.tsx:46 | two updates in a row are one update with the combined patch |
| UserContext.Session.constructor | src/components/UserContext.tsx:52-62 | a readable saved record becomes the user; a missing or unreadable one leaves no user; the copy stays in step |
| UserContext.Session.Login | src/components/UserContext.tsx:25-37 | the user becomes the new user and is persisted |
| UserContext.Session.Logout | src/components/UserContext.tsx:39-42 | no user and no persisted record, from any state |
| UserContext.Session.UpdateUser | src/components/UserContext.tsx:44-50 | no user: nothing changes; otherwise the user is merged with the patch and persisted |
| UserContext.UseUser | src/components/UserContext.tsx:71-77 | outside a provider the call fails; inside it returns the context |
| UserContext.Visit | src/components/UserContext.tsx:25-50 | log in without an id, update the phone, log out: the user carries the clock id and the phone, then is gone |
| Features.Left | src/components/Features.jsx:175-177 | the left step never goes below 0: one less for a positive index, 0 otherwise |
| Features.Right | src/components/Features.jsx:179-181 | the right step never passes the last start (6 features − 3 shown): one more below it, the last start otherwise |
| Features.StepsStayInRange | src/components/Features.jsx:168-181 | both steps keep 0 ≤ i ≤ 3 |
| Features.RightThenLeft | src/components/Features.jsx:175-181 | below the last start, right then left restores the index |
| Features.DisabledIffNoOp | src/components/Features.jsx:209-218 | a button is disabled exactly when its step would change nothing |
| Features.Visible | src/components/Features.jsx:183 | the window is exactly 3 consecutive features from the index, in list order |
| Features.Carousel.constructor | src/components/Features.jsx:168 | the index starts at 0 |
| Features.Carousel.ScrollLeft | src/components/Features.jsx:175-177 | the index takes one left step and stays in range |
| Features.Carousel.ScrollRight | src/components/Features.jsx:179-181 | the index takes one right step and stays in range |
| Features.Carousel.Shown | src/components/Features.jsx:183 | the carousel shows the three features from its index, in order, as Visible gives |
| Features.ClickThrough | src/components/Features.jsx:175-218 | four clicks right reach the last window, with left enabled and right disabled |
| WeatherAI.WeatherType | src/components/WeatherAI.jsx:115-120 | rainy iff the lower-cased condition contains "rain"; cloudy iff it contains "cloud" but not "rain"; the kind is always a key of the activity table |
| WeatherAI.SuggestionsFor | src/components/WeatherAI.jsx:58-74 | the lookup at the activities tab never misses and gives three suggestions |
| WeatherAI.CurrentIsCloudy | src/components/WeatherAI.jsx:33 | "Partly Cloudy" is classed cloudy |
| WeatherAI.SeverityColor | src/components/WeatherAI.jsx:106-113 | high, medium and low each have their own style; anything else is gray |
| WeatherAI.WeatherIcon | src/components/WeatherAI.jsx:95-104 | the sun icon is shown exactly for sunny and unknown icon types |
| WeatherAI.ForecastWellFormed | src/components/WeatherAI.jsx:39-45 | five days, each with min ≤ max and rain chance in 0..100 |
| WeatherAI.WeatherPanel.constructor | src/components/WeatherAI.jsx:77-81 | Kerala, empty input, not loading, first day selected |
| WeatherAI.WeatherPanel.SetCity | src/components/WeatherAI.jsx:178-188 | typing or a quick-city button sets only the input |
| WeatherAI.WeatherPanel.SearchDisabled | src/components/WeatherAI.jsx:169 | `isLoading \|\| !customCity.trim()`: disabled exactly while loading or when the box is blank, the input HandleCitySearch ignores |
| Text.TrimEmptyIffBlank | src/components/WeatherAI.jsx:84 | a string trims to nothing exactly when it is all whitespace |
| WeatherAI.WeatherPanel.HandleCitySearch | src/components/WeatherAI.jsx:83-88 | a blank input changes nothing; otherwise loading starts and the city is queued |
| WeatherAI.WeatherPanel.FinishSearch | src/components/WeatherAI.jsx:88-92 | the queued city becomes the location, the input clears, loading stops |
| WeatherAI.WeatherPanel.SelectDay | src/components/WeatherAI.jsx:296 | the selected day is a forecast index |
| WeatherAI.SearchMumbai | src/components/WeatherAI.jsx:83-93 | choosing Mumbai and searching shows loading, then Mumbai with a cleared input |
| CrowdPredictor.DataFor | src/components/CrowdPredictor.tsx:70 | a known attraction gives its data; any other gives the Taj Mahal data |
| CrowdPredictor.DataLevelsInRange | src/components/CrowdPredictor.tsx:26-67 | every level of the data shown lies in 0..100, so each bar width is a valid percentage |
| CrowdPredictor.ProgressColor | src/components/CrowdPredictor.tsx:91-96 | green iff ≤ 30, yellow iff 31–60, orange iff 61–80, red above 80 |
| CrowdPredictor.ProgressColorMonotone | src/components/CrowdPredictor.tsx:91-96 | a higher level never gets a lower colour band |
| CrowdPredictor.StatusColor | src/components/CrowdPredictor.tsx:72-80 | the four statuses each have their own style; anything else is gray |
| CrowdPredictor.StatusIcon | src/components/CrowdPredictor.tsx:82-89 | down iff low; up iff high or very-high; flat otherwise |
| CrowdPredictor.BadgeAndBarCanDisagree | src/components/CrowdPredictor.tsx:53-54 | the Gateway of India (60, "high") shows an orange badge beside a yellow bar |
| Header.SplitSpaces | src/components/Header.tsx:35 | `split(' ')` gives at least one piece, none holding a space |
| Header.SplitJoin | src/components/Header.tsx:35 | joining the pieces with single spaces gives back the name |
| Header.Initials | src/components/Header.tsx:34-36 | one character per non-empty piece of the split name, the k-th being the upper-cased first character of the k-th non-empty piece; never more than the pieces |
| Header.HeadsOfNonEmpty | src/components/Header.tsx:35 | `word[0]` over the pieces gives, in order, the first characters of exactly the non-empty pieces |
| Header.InitialsCount | src/components/Header.tsx:35 | one initial per non-empty piece |
| Header.PriyaSharma | src/components/Header.tsx:34-36 | "Priya Sharma" gives "PS" |
| Header.PaddedName | src/components/Header.tsx:35 | " priya  sharma" also gives "PS": empty pieces contribute nothing |
| Header.PanelFor | src/components/Header.tsx:249-266 | the count is the list length; "Download All" iff the list is non-empty; the empty-state text iff it is empty |
| Header.DocumentShelf.constructor | src/components/Header.tsx:19 | the list starts empty |
| Header.DocumentShelf.HandleFileUpload | src/components/Header.tsx:26-32 | no file list: nothing changes; otherwise the names are appended in selection order |
| Header.DocumentShelf.View | src/components/Header.tsx:249-266 | the panel shows the list's state |
| Header.UploadTwice | src/components/Header.tsx:26-32 | uploading one file and then two gives three names in order and flips the panel |
| WelcomePage.Set | src/components/WelcomePage.jsx:25-27 | the chosen field takes the value |
| WelcomePage.SetOnlyThatField | src/components/WelcomePage.jsx:25-27 | every other field is unchanged |
| WelcomePage.SetLaws | src/components/WelcomePage.jsx:25-27 | writing a field's own value changes nothing; the later of two writes wins |
| WelcomePage.DisabledIffRejected | src/components/WelcomePage.jsx:185 | the button is disabled exactly when the submit guard rejects |
| WelcomePage.WelcomeForm.constructor | src/components/WelcomePage.jsx:11-16 | all four fields start empty |
| WelcomePage.WelcomeForm.HandleInputChange | src/components/WelcomePage.jsx:25-27 | the form becomes the old form with that field set |
| WelcomePage.WelcomeForm.HandleSubmit | src/components/WelcomePage.jsx:18-23 | the whole form is handed on iff name and email are both non-empty |
| WelcomePage.SignUp | src/components/WelcomePage.jsx:18-27 | submitting with only a name is refused; adding the email sends the form |

## Left out

- Rendering is not modelled: JSX markup, styling classes, animations, dialogs and tabs. A colour or icon becomes a constructor, and a reply text becomes a constructor named after its topic.
- The generated offline page is modelled as a sequence of pieces (heading, budget lines, day and activity blocks, emergency numbers, documents), not as HTML text.
- Activity locations and descriptions are not modelled; they are only displayed. A day's number is not shown on the page, so reading the page back gives day 0.
- Browser storage is the `stored` field of `Session`. JSON parsing is abstracted: a saved record either parses to a user or is unreadable.
- The blob download, the anchor click and object URLs are not modelled.
- Timers are not modelled as concurrency. A delayed update is its own method, and replies and searches still pending wait in a queue in call order.
- `Date.now()` ids are a parameter. New Date timestamps and message ids are not modelled.
- Floating point is not modelled. The expense split and vote percentages use exact reals, so IEEE rounding is not captured.
- `toFixed`, `toLocaleString` and display percentages of the page are not modelled.
- `parseInt` is not modelled in full. A custom rate arrives already parsed, as `None` for NaN. The itinerary budget string is parsed by deleting non-digits and reading the rest in decimal.
- Case mapping and whitespace are ASCII: `toLowerCase`, `toUpperCase` and `\s` on other Unicode characters are not modelled.
- A key such as `constructor` would find an inherited property in a JavaScript object lookup; the maps here hold only the listed keys.
- A patch field given explicitly as `undefined` overwrites in the source spread. The patch here is only present or missing.
- Reviews.FilteredReviews: the recent mode is stated to sort newest first by comparing ISO date strings; `new Date` parsing is not modelled. The order of equal keys (sort stability) is not stated.
- The add-expense form is not modelled: it is not wired to any state.
- `UserContext.jsx` is not part of this model: it repeats `UserContext.tsx`.
- The initials code in `UserProfile.tsx` and the destination choice in `HeroSection.tsx` are not part of this model: they repeat `Header.tsx` and `BudgetCalculator.jsx`.
- The routing and welcome gating in `App.tsx` and `App.jsx` are not part of this model.
- WeatherAI.WeatherPanel.HandleCitySearch: pressing Enter calls the search even while loading, because only the button is disabled; the model allows a second search to start then, as the code does.
- GroupCoordination.CalculateExpenseSplit: an expense with an empty split list gives its payer the amount and hands out no shares, since the source's `Infinity` part is never used; conservation is therefore stated only for non-empty split lists.
