# PledgeCard in Dafny

PledgeCard is a crowdfunding web application: supporters give to campaigns
at once (a donation) or promise to give by a date (a pledge), organizers
create campaigns through a five-step wizard, and administrators approve or
suspend them. This project models the application's core in Dafny and
proves properties of that model:

- the in-memory backend (`services/mockApi.ts`): the campaign, pledge and
  donation lists, and the totals a donation or pledge credits;
- the dashboard metrics (`lib/dashboardHelpers.ts`): account age, category
  breakdown, top category, supporter level and monthly growth;
- the pages: the supporter dashboard, the campaign page, the admin
  dashboard, the home page, the campaign browser and the creation wizard;
- the cards and the progress bar (`components/`).

Every page that shows a campaign list applies the same realtime update.
That update is modelled once, in `LiveUpdate`.

The model keeps the form of the code:

- Pure helpers are functions.
- A helper built from a loop (`getCategoryBreakdown`, `calculateUserLevel`,
  the dashboard's session wait) is a method with a loop. Its contract ties
  it to a function.
- The backend and each page are classes. Their fields are the module's
  lists or the component's state, and each handler is a method that
  changes them.

Amounts are integers, in UGX. Dates are milliseconds since the epoch, and
an empty date string is read as 0. `Math.round` is modelled exactly,
rounding halves up. On the owner card, the campaign page and the admin
table, a division by a zero target gives an infinite or not-a-number
percentage, and the model keeps those cases apart. The public card divides
by `target || 1`, and the progress bar is modelled for positive targets
only (see "Left out").

Files and modules:

- `seqs.dfy` — `Seqs`: sums, filters, subsequences and the stable
  descending sort that every `Array.prototype.sort` call of the code has.
- `text.dfy` — `Text`: lower-casing, substring search and decimal numbers.
- `arith.dfy` — `Arith`: rounding and ceiling division.
- `domain.dfy` — `Domain`: the records and enumerations.
- `mock_api.dfy` — `MockApi`: the backend.
- `metrics.dfy` — `Metrics`: the dashboard helpers.
- `live_update.dfy` — `LiveUpdate`: the shared realtime update.
- `progress_bar.dfy` — `ProgressBar`.
- `campaign_card.dfy` — `CampaignCard`.
- `my_campaign_card.dfy` — `MyCampaignCard`.
- `dashboard.dfy` — `Dashboard`.
- `campaign_details.dfy` — `CampaignDetails`.
- `admin_dashboard.dfy` — `AdminDashboard`.
- `home.dfy` — `Home`.
- `campaigns.dfy` — `Campaigns`.
- `create_campaign.dfy` — `CreateCampaign`.

## Model

| member | source | states |
|---|---|---|
| MockApi.FindIndex | services/mockApi.ts:141 | the index of the first campaign with the id; none exactly when no campaign has it |
| MockApi.FindIndexIsFirst | services/mockApi.ts:163 | the lookup finds position i exactly when campaign i has the id and no earlier campaign has it |
| MockApi.CreditRaised | services/mockApi.ts:163-166 | only the first campaign with the id gains the amount in its raised total; every id and pledged total is kept; nothing changes when no campaign has the id |
| MockApi.CreditPledged | services/mockApi.ts:141-144 | the same for the pledged total of the first campaign with the id |
| MockApi.CreditAccounted | services/mockApi.ts:150-170 | recording an event and crediting the campaign the lookup picks keeps each total equal to its seed plus the events recorded for its id |
| MockApi.AppendAccounted | services/mockApi.ts:98-119 | appending a campaign whose totals are 0 keeps that accounting for every campaign |
| MockApi.FrameAccounted | services/mockApi.ts:127-148 | a change that keeps every id and a total keeps the accounting of that total |
| MockApi.PledgeAccounted | services/mockApi.ts:127-148 | recording a pledge and crediting its campaign keeps both the raised and the pledged accounting |
| MockApi.DonationAccounted | services/mockApi.ts:150-170 | recording a donation and crediting its campaign keeps both accountings |
| MockApi.CreditRaisedTotals | services/mockApi.ts:163-166 | a donation adds its amount to the sum of raised totals when a campaign has its id, and nothing otherwise; the pledged sum is unchanged |
| MockApi.CreditPledgedTotals | services/mockApi.ts:141-144 | a pledge adds its amount to the sum of pledged totals when a campaign has its id; the raised sum is unchanged |
| MockApi.CreditTwice | services/mockApi.ts:150-170 | nothing is deduplicated: the same donation recorded twice credits twice its amount |
| MockApi.StringOr | services/mockApi.ts:103-105 | `value \|\| fallback` for a string: a missing or empty value gives the fallback, any other is kept |
| MockApi.IntOr | services/mockApi.ts:106 | `value \|\| fallback` for a number or a date: a missing value or 0 gives the fallback |
| MockApi.NewCampaign | services/mockApi.ts:100-115 | the new campaign has id `c<now>`, owner u2, status PENDING, zero totals and start date now; each `\|\|` fallback is stated: a missing or empty title is "Untitled", description "", category "General", a missing or zero target 0 and a missing or zero end date now; a non-empty image list is kept, any other gets the one placeholder image |
| MockApi.NewCampaignIdsDiffer | services/mockApi.ts:101 | campaigns created at different times get different ids |
| MockApi.Ledger.constructor | services/mockApi.ts:4-77 | the seed campaigns and users it is given, no pledges and no donations; the accounting invariant holds |
| MockApi.Ledger.GetCampaigns | services/mockApi.ts:80-85 | exactly the APPROVED campaigns, in stored order, each kept as many times as it is stored |
| MockApi.Ledger.GetAllCampaigns | services/mockApi.ts:86-91 | every campaign, in stored order |
| MockApi.Ledger.GetCampaignById | services/mockApi.ts:92-97 | none exactly when no campaign has the id; otherwise the first campaign with it |
| MockApi.Ledger.GetUserCampaigns | services/mockApi.ts:121-125 | exactly the campaigns owned by the user, in stored order, each kept as many times as it is stored |
| MockApi.Ledger.GetUserPledges | services/mockApi.ts:172-176 | exactly the user's pledges, in stored order, each kept as many times as it is stored |
| MockApi.Ledger.GetUserDonations | services/mockApi.ts:178-182 | exactly the user's donations, in stored order, each kept as many times as it is stored |
| MockApi.Ledger.GetCurrentUser | services/mockApi.ts:184-186 | the first seed user, present exactly when there is one |
| MockApi.Ledger.GetAdminStats | services/mockApi.ts:215-228 | the sums of the raised and pledged totals, the user and campaign counts, and the pending count, which is the number of PENDING campaigns (0 exactly when there is none) |
| MockApi.Ledger.CreateCampaign | services/mockApi.ts:98-119 | appends the new campaign; pledges and donations are kept; the campaign is recorded as seeded with no money before any later donation or pledge, so the accounting invariant is kept |
| MockApi.Ledger.CreatePledge | services/mockApi.ts:127-148 | appends a PENDING pledge with id `p<now>` and credits its campaign's pledged total; donations, every campaign's seed record and the accounting invariant are kept |
| MockApi.Ledger.CreateDonation | services/mockApi.ts:150-170 | appends the donation with id `d<now>` and credits its campaign's raised total; pledges, every campaign's seed record and the accounting invariant are kept |
| MockApi.Ledger.UpdateCampaignStatus | services/mockApi.ts:230-233 | echoes the id and the status and stores nothing |
| MockApi.RaisedIsSeedPlusDonations | services/mockApi.ts:163-166 | in any ledger built by the service's operations, the raised total of the first campaign with its id is its seeded amount plus every donation recorded for that id after it was seeded |
| MockApi.TwoDonationsAddUp | services/mockApi.ts:150-170 | two donations to the first seed campaign raise its total by both amounts |
| Metrics.AccountAgeWeeks | lib/dashboardHelpers.ts:28-34 | at least 1; 1 during the first two weeks; from one week on, the number of whole weeks since creation |
| Metrics.Get | lib/dashboardHelpers.ts:50 | `map.get(k) \|\| 0`: 0 for a missing key |
| Metrics.Set | lib/dashboardHelpers.ts:51 | an existing key keeps its place and a new key goes last; only k's value changes; the values' sum changes by the difference |
| Metrics.AddKeepsDistinct | lib/dashboardHelpers.ts:49-52 | adding an entry never duplicates a key |
| Metrics.Breakdown | lib/dashboardHelpers.ts:40-65 | the category map has distinct keys |
| Metrics.BreakdownGet | lib/dashboardHelpers.ts:40-65 | each category's value is the sum of the counted amounts naming it |
| Metrics.BreakdownKeys | lib/dashboardHelpers.ts:40-65 | a category is a key exactly when some counted entry names it |
| Metrics.BreakdownSize | lib/dashboardHelpers.ts:40-65 | the map has one entry per distinct counted category |
| Metrics.BreakdownTotal | lib/dashboardHelpers.ts:40-65 | the map's values add up to all counted amounts |
| Metrics.UnfulfilledPledgeIgnored | lib/dashboardHelpers.ts:56 | a pledge that is not FULFILLED adds nothing, whatever its category |
| Metrics.UnnamedDonationIgnored | lib/dashboardHelpers.ts:49 | a donation without a category adds nothing |
| Metrics.BreakdownSnoc | lib/dashboardHelpers.ts:47-62 | one more counted entry is one more map update |
| Metrics.DonationStep | lib/dashboardHelpers.ts:47-53 | one turn of the donation loop is one map update |
| Metrics.PledgeStep | lib/dashboardHelpers.ts:55-62 | one turn of the pledge loop is one map update |
| Metrics.GetCategoryBreakdown | lib/dashboardHelpers.ts:40-65 | the two loops build the map of the counted donations and pledges, in that order |
| Metrics.TopOf | lib/dashboardHelpers.ts:76-87 | the count is the map's size; no category exactly when the map is empty; otherwise the first of the largest entries |
| Metrics.TopCategoryCount | lib/dashboardHelpers.ts:70-88 | the count is the number of distinct counted categories; no top category exactly when nothing is counted |
| Metrics.TopCategoryIsFirstLargest | lib/dashboardHelpers.ts:81-85 | the top category is a counted category whose total is at least every other category's, and every category inserted before it has a strictly smaller total, so a tie goes to the first inserted |
| Metrics.LadderIncreasing | lib/dashboardHelpers.ts:4-12 | seven rungs with strictly increasing minimums, numbered 1 to 7 |
| Metrics.ImpactOfNewPledge | lib/dashboardHelpers.ts:98-102 | a new pledge adds its amount to the impact only if it is FULFILLED |
| Metrics.LastReached | lib/dashboardHelpers.ts:108-113 | the rung the loop settles on is a rung of the ladder, and one of the rungs scanned |
| Metrics.LastReachedBrackets | lib/dashboardHelpers.ts:108-113 | the rung the loop keeps is reached by any non-negative impact, and no later rung scanned is reached; a negative impact keeps the first rung |
| Metrics.LevelIndexBrackets | lib/dashboardHelpers.ts:105-113 | the current rung is the highest whose minimum the impact reaches (the first rung when none is) |
| Metrics.LevelMonotone | lib/dashboardHelpers.ts:105-113 | a larger impact never gives a lower level |
| Metrics.Progress | lib/dashboardHelpers.ts:116-128 | between 0 and 100; 100 on the top rung; 0 up to a rung's minimum, and 100 from the next rung's minimum on |
| Metrics.CalculateUserLevel | lib/dashboardHelpers.ts:93-131 | the loop yields the level, name, rounded progress and next name of the total impact |
| Metrics.ProgressBounds | lib/dashboardHelpers.ts:116-128 | progress lies in [0, 100] and is 100 on the top rung; the next level's name is the current one's exactly on the top rung |
| Metrics.RoundingAtRungBoundary | lib/dashboardHelpers.ts:116-128 | 100,000 UGX is Silver at 0%, and 99,999 UGX is Bronze at 100% |
| Metrics.Growth | lib/dashboardHelpers.ts:174-179 | with no impact last month the growth is 100 or 0; otherwise the rounded percentage change, bracketed for a positive and for a negative last month; never below -100 for non-negative impacts, and 0 when nothing changed |
| Metrics.RoundedGrowthFacts | lib/dashboardHelpers.ts:178-179 | a rounded percentage change is never below -100 and is 0 for equal impacts |
| Metrics.LastDayOfMonthDropped | lib/dashboardHelpers.ts:143-168 | as written, a donation late on the last day of last month counts in neither month (growth 0 instead of -100) |
| Metrics.MonthsPartitionTime | lib/dashboardHelpers.ts:141-143 | with whole months, every moment from the start of last month lies in exactly one of the two months |
| Metrics.MonthsSplitImpact | lib/dashboardHelpers.ts:141-168 | with whole months, this month's impact plus last month's is the whole impact since last month began |
| Metrics.CalculateAllMetrics | lib/dashboardHelpers.ts:185-205 | every field of the metrics is the corresponding helper's result, the growth figure as the code computes it; the age is at least a week and the progress lies in [0, 100] |
| LiveUpdate.Apply | pages/Dashboard.tsx:116-124 | the campaign takes the row's raised amount, pledged amount and status and keeps every other field |
| LiveUpdate.Merge | pages/Dashboard.tsx:115-126 | the list keeps its length |
| LiveUpdate.MergeAt | pages/Dashboard.tsx:115-126 | each position is updated from the row exactly when its id matches, and keeps its id, title and target |
| LiveUpdate.MergeUnknownId | pages/Home.tsx:95-104 | a row whose id is not in the list leaves the list unchanged |
| LiveUpdate.MergeIdempotent | pages/Home.tsx:95-104 | receiving the same row twice is the same as receiving it once |
| LiveUpdate.MergeCommutes | pages/Home.tsx:95-104 | rows about two different campaigns may arrive in either order |
| LiveUpdate.Ids | pages/Dashboard.tsx:111-112 | one channel per campaign, in list order |
| LiveUpdate.MergeKeepsIds | pages/Dashboard.tsx:107-140 | an update never changes the ids subscribed to |
| Text.NumberOfSigned | pages/CreateCampaign.tsx:98 | `Number` of digits after a '-' is the digits' value negated, and after a '+' the value itself |
| ProgressBar.RaisedPercent | components/ProgressBar.tsx:10 | at most 100 and at most the raised ratio, and one of the two |
| ProgressBar.PledgedPercent | components/ProgressBar.tsx:11 | at most the pledged ratio, and the two segments together never exceed 100 |
| ProgressBar.UncappedWithinTarget | components/ProgressBar.tsx:10-11 | while raised plus pledged stays within the target, both segments are their plain ratios |
| ProgressBar.FullyRaisedLeavesNoPledgedWidth | components/ProgressBar.tsx:10-11 | once the target is raised, the raised segment is full and the pledged one has no width |
| ProgressBar.RaisedPercentMonotone | components/ProgressBar.tsx:10 | more raised never shrinks the raised segment |
| CampaignCard.DaysLeft | components/CampaignCard.tsx:12 | the whole days left, rounded up |
| CampaignCard.CountdownLabel | components/CampaignCard.tsx:60 | "Ended" exactly when no day is left, otherwise the number of days |
| CampaignCard.EndedIffPastEnd | components/CampaignCard.tsx:12 | a card reads "Ended" exactly when its end date is not in the future |
| CampaignCard.EffectiveTarget | components/CampaignCard.tsx:14 | `target \|\| 1`: never 0, and the target when that is not 0 |
| CampaignCard.CardPercent | components/CampaignCard.tsx:13-14 | the committed amount as a percentage of the effective target, rounded to the nearest whole number |
| CampaignCard.CardPercentNotCapped | components/CampaignCard.tsx:13-14 | for a positive target the card shows at least 100% exactly from 99.5% of the target on and more than 100% exactly from 100.5% on; 150 of 100 shows 150% |
| CampaignCard.FirstClose | components/CampaignCard.tsx:18 | the first '>' at or after a position, or none |
| CampaignCard.TagAt | components/CampaignCard.tsx:18 | a tag match at the start is '<', at least one character other than '>', then '>' |
| CampaignCard.StripTagsSubsequence | components/CampaignCard.tsx:18 | the preview keeps the description's characters in order and is never longer |
| CampaignCard.NoOpenNoTags | components/CampaignCard.tsx:18 | text without '<' contains no tag |
| CampaignCard.StripTagsNoTags | components/CampaignCard.tsx:18 | text without tags is its own preview |
| CampaignCard.NoOpenUnchanged | components/CampaignCard.tsx:18 | a description without '<' is shown as it is |
| CampaignCard.StripTagsLeavesNoTags | components/CampaignCard.tsx:18 | the preview contains no tag |
| CampaignCard.StripTagsIdempotent | components/CampaignCard.tsx:18 | the preview of a preview is the preview |
| MyCampaignCard.PercentOf | components/MyCampaignCard.tsx:13 | the rounded percentage for a non-zero target; for a zero target, +infinity, -infinity or not-a-number by the total's sign |
| MyCampaignCard.BarWidth | components/MyCampaignCard.tsx:97 | `Math.min(percent, 100)`: a number never above 100, infinity capped at 100, and not-a-number or -infinity passed through |
| MyCampaignCard.BarFullIffFunded | components/MyCampaignCard.tsx:13-97 | for a positive target the bar is full exactly when the total reaches 99.5% of it |
| Arith.RoundedPercent | components/MyCampaignCard.tsx:13 | a rounded percentage of a positive target is at least 100 exactly from 99.5% on, and above 100 exactly from 100.5% on |
| MyCampaignCard.StatusBadge | components/MyCampaignCard.tsx:18-45 | one distinct badge text per status |
| MyCampaignCard.Render | components/MyCampaignCard.tsx:11-135 | the label shows the card's percentage, uncapped, and the bar `min(percent, 100)`, never wider than 100; the countdown is the card's day count, "Ended" exactly past the end date; the edit link and the review notice exactly for a pending card; the status badge |
| MyCampaignCard.RenderLabelPassesFullBar | components/MyCampaignCard.tsx:87-97 | for a positive target the label passes 100 exactly from 100.5% of the target while the bar is full from 99.5%, and below 100 the bar is as wide as the label says |
| Dashboard.EstablishSession | pages/Dashboard.tsx:42-55 | one to three requests; every earlier answer was empty; the result is the last answer, and an empty result means three requests were made |
| Dashboard.TotalDonatedAppend | pages/Dashboard.tsx:303 | a new donation adds its amount to the donated total |
| Dashboard.TotalPledgedAppend | pages/Dashboard.tsx:304 | a new pledge adds its amount to the pledged total only while it is PENDING |
| Dashboard.Gifts | pages/Dashboard.tsx:307 | one feed entry per donation, in order |
| Dashboard.Promises | pages/Dashboard.tsx:308 | one feed entry per pledge, in order |
| Dashboard.Activities | pages/Dashboard.tsx:306-314 | the feed is sorted latest first and is a permutation of the donations followed by the pledges |
| Dashboard.ActivitiesMembers | pages/Dashboard.tsx:306-314 | every donation and every pledge is in the feed, and nothing else is |
| Dashboard.FeedMembers | pages/Dashboard.tsx:306-308 | the unsorted feed holds exactly the donations and the pledges |
| Dashboard.ActivitiesHead | pages/Dashboard.tsx:309-314 | the feed opens with the first-listed of the entries with the latest date |
| Dashboard.SectionsCount | pages/Dashboard.tsx:480-525 | the pending section, the active section and the SUSPENDED campaigns together count every campaign once |
| Dashboard.SuspendedHidden | pages/Dashboard.tsx:480-525 | a SUSPENDED campaign is in neither section |
| Dashboard.MaxLevelShownAtBronze | pages/Dashboard.tsx:640-643 | as written, 99,999 UGX is level 1 and the caption says "Max Level!" |
| Dashboard.MaxLevelIffTopRung | pages/Dashboard.tsx:637-643 | the corrected caption says "Max Level!" exactly on the top rung, and otherwise names the next level |
| Dashboard.CaptionsAgreeAtTop | pages/Dashboard.tsx:640-643 | on the top rung the caption as written and the corrected one agree |
| Dashboard.DashboardPage.constructor | pages/Dashboard.tsx:27-36 | the initial state: no user, empty lists, no metrics, loading |
| Dashboard.DashboardPage.Mount | pages/Dashboard.tsx:38-104 | redirects to the login page exactly when the three session answers are empty; otherwise the user's data is loaded, and the metrics (with the growth figure as the code computes it) describe it when the profile has a creation time; loading ends |
| Dashboard.DashboardPage.Load | pages/Dashboard.tsx:64-79 | the user, and the pledges, donations and campaigns the service returns for that user; the metrics are computed, with the growth figure as written, only for a profile with a creation time; the channels and the redirect are untouched |
| Dashboard.MetricsFor | pages/Dashboard.tsx:76-79 | the metrics describe the user's data exactly when the profile has a non-zero creation time; otherwise the previous metrics are kept |
| Dashboard.DashboardPage.OnCampaignUpdate | pages/Dashboard.tsx:112-132 | a row is merged and its title announced; an empty payload changes nothing; the subscribed ids, user, lists and metrics are kept |
| Dashboard.DashboardPage.HideNotification | pages/Dashboard.tsx:131 | hides the notification and nothing else |
| Dashboard.DashboardPage.SyncSubscriptions | pages/Dashboard.tsx:107-140 | closes the previous channels and opens one per campaign, none without a user or a campaign |
| CampaignDetails.OldRaised | pages/CampaignDetails.tsx:50 | the shown campaign's raised amount, 0 when there is none |
| CampaignDetails.OldPledged | pages/CampaignDetails.tsx:51 | the shown campaign's pledged amount, 0 when there is none |
| CampaignDetails.Classify | pages/CampaignDetails.tsx:56-62 | a donation exactly when the raised amount grew; a pledge exactly when only the pledged amount grew; none otherwise |
| CampaignDetails.HighlightOf | pages/CampaignDetails.tsx:56-62 | a donation highlights the raised figure, a pledge the pledged one |
| CampaignDetails.MergeShown | pages/CampaignDetails.tsx:72-80 | no campaign stays none |
| CampaignDetails.MergeShownAgrees | pages/CampaignDetails.tsx:72-80 | for a row of the shown campaign, the page's merge is the list merge of the other pages |
| CampaignDetails.RefetchShowsPledge | pages/CampaignDetails.tsx:107-111 | after a pledge, reading the campaign again finds it at the same place with its pledged amount grown by the pledge |
| CampaignDetails.PercentAgreesWithCard | pages/CampaignDetails.tsx:166 | for a non-zero target the page's percentage is the public card's |
| CampaignDetails.BarNotCapped | pages/CampaignDetails.tsx:345 | the page's bar is not capped: for a positive target it passes 100% exactly from 100.5% of the target on (150 of 100 is 150%), and a zero target with money is infinite |
| CampaignDetails.PageCountdown | pages/CampaignDetails.tsx:167 | a count of days is shown only while positive, and it is the whole days to the end date rounded up |
| CampaignDetails.PageCountdownEnded | pages/CampaignDetails.tsx:266 | the page shows "Ended" exactly when the end date is not in the future; otherwise a count d with the end date within the d-th day from now |
| CampaignDetails.DetailsPage.constructor | pages/CampaignDetails.tsx:12-30 | the initial state |
| CampaignDetails.DetailsPage.Load | pages/CampaignDetails.tsx:32-42 | with a route id, the campaign is looked up, its first image becomes the hero, and loading ends; without one nothing happens |
| CampaignDetails.DetailsPage.OnCampaignUpdate | pages/CampaignDetails.tsx:47-81 | a row is classified against the campaign shown so far, announced and merged; the previous kind is kept when neither amount grew; an empty payload changes nothing |
| CampaignDetails.DetailsPage.OpenModal | pages/CampaignDetails.tsx:156-160 | sets the mode, opens the modal and clears the success message |
| CampaignDetails.DetailsPage.HandleAction | pages/CampaignDetails.tsx:89-124 | without a campaign or a user nothing is recorded (and without a user the page redirects); a donation opens the payment simulation; a pledge of the typed amount is recorded and the campaign read again |
| CampaignDetails.DetailsPage.SubmitPledge | pages/CampaignDetails.tsx:105-111 | one PENDING pledge appended, the campaign credited and read again |
| CampaignDetails.DetailsPage.HandlePaymentSuccess | pages/CampaignDetails.tsx:126-154 | with a campaign and a user, the donation is recorded and its campaign credited; otherwise nothing is recorded; the shown campaign is left for the realtime update |
| CampaignDetails.PledgeVisibleAfterRefetch | pages/CampaignDetails.tsx:107-111 | the campaign shown after a pledge carries it |
| AdminDashboard.RaisedDelta | pages/AdminDashboard.tsx:84-85 | the row's raised amount minus the captured campaign's, 0 when no campaign has the row's id |
| AdminDashboard.PledgedDelta | pages/AdminDashboard.tsx:86-87 | the same for the pledged amount |
| AdminDashboard.MergeTotals | pages/AdminDashboard.tsx:70-94 | with distinct ids, the statistics moved by the deltas are the totals of the merged table |
| AdminDashboard.RepeatedIdDrifts | pages/AdminDashboard.tsx:70-94 | with a repeated id the table changes every copy while the statistics count the change once |
| AdminDashboard.Badge | pages/AdminDashboard.tsx:122-136 | one badge per status; APPROVED reads "Active" |
| AdminDashboard.ActionFor | pages/AdminDashboard.tsx:345-359 | Suspend exactly for an APPROVED row, Approve for every other |
| AdminDashboard.TargetStatus | pages/AdminDashboard.tsx:345-359 | Approve asks for APPROVED, Suspend for SUSPENDED |
| AdminDashboard.ActionChangesStatus | pages/AdminDashboard.tsx:345-359 | a row's action always asks for a status other than its own |
| AdminDashboard.PendingList | pages/AdminDashboard.tsx:116 | exactly the PENDING campaigns, in table order, each kept as many times as it appears |
| AdminDashboard.Search | pages/AdminDashboard.tsx:117-120 | exactly the campaigns whose lower-cased title or category contains the lower-cased term, in table order, each kept as many times as it appears |
| AdminDashboard.EmptySearchShowsAll | pages/AdminDashboard.tsx:117-120 | an empty term shows every campaign |
| AdminDashboard.SearchIgnoresCase | pages/AdminDashboard.tsx:117-120 | lower-casing the term changes nothing |
| AdminDashboard.AdminPage.constructor | pages/AdminDashboard.tsx:21-32 | zero statistics, an empty table, loading; the statistics are in step with the table |
| AdminDashboard.AdminPage.RefreshData | pages/AdminDashboard.tsx:34-43 | the whole list and the service's statistics, which are then in step with the table |
| AdminDashboard.AdminPage.SyncSubscriptions | pages/AdminDashboard.tsx:62-108 | closes the previous channels, opens one per campaign (none for an empty list), and captures the list |
| AdminDashboard.AdminPage.OnCampaignUpdate | pages/AdminDashboard.tsx:67-100 | merges the row, moves the totals by the row's change against the captured list, announces the title; right after the subscription effect, with distinct ids, the statistics stay in step |
| AdminDashboard.AdminPage.HandleStatusUpdate | pages/AdminDashboard.tsx:111-114 | the service call, then a refresh: the table and the statistics are the service's, in step; the service's list is unchanged; the search term, the open channels and their captured list are kept |
| AdminDashboard.AdminPage.SetSearchTerm | pages/AdminDashboard.tsx:30 | changes the term only |
| AdminDashboard.AdminPage.Rows | pages/AdminDashboard.tsx:290 | exactly the campaigns matching the current term, in table order, each kept as many times as it appears |
| AdminDashboard.RowPercent | pages/AdminDashboard.tsx:291 | the row's rounded percentage of the target for a non-zero target; +infinity for a zero target exactly when there is money |
| AdminDashboard.RowBarNotCapped | pages/AdminDashboard.tsx:291-334 | the row's bar width is its percentage, uncapped: above 100% exactly from 100.5% of a positive target on, at least 100% for an over-funded campaign, infinite for a zero target with money |
| Home.Featured | pages/Home.tsx:418 | the first three campaigns, or all when fewer |
| Home.FeaturedAfterUpdate | pages/Home.tsx:93-105 | an update never changes which campaigns are featured |
| Home.RingOffset | pages/Home.tsx:67 | the undrawn part of the ring: the whole ring at 0, none at 100, within the ring in between |
| Home.RingOffsetDecreasing | pages/Home.tsx:67 | more progress leaves less of the ring undrawn |
| Home.ArcIsProperPart | pages/Home.tsx:58-67 | any progress strictly between 0 and 100 is truthy and draws a proper part of the ring |
| Home.BubblesDrawArcs | pages/Home.tsx:157-202 | every one of the six fixed bubbles has a truthy value, so each draws an arc that is a proper part of the ring |
| Home.HomePage.constructor | pages/Home.tsx:84-85 | an empty list, loading, no channel |
| Home.HomePage.Mount | pages/Home.tsx:87-93 | the APPROVED campaigns are loaded and the channel is opened |
| Home.HomePage.OnCampaignUpdate | pages/Home.tsx:93-106 | a row is merged; an empty payload changes nothing |
| Home.HomePage.Unmount | pages/Home.tsx:108-110 | the channel is closed |
| Campaigns.FundedRatio | pages/Campaigns.tsx:54-56 | committed over target for a non-zero target |
| Campaigns.Selected | pages/Campaigns.tsx:32-46 | exactly the campaigns in the category (any for "All") matching the query (any for an empty one), in list order, each kept as many times as it appears |
| Campaigns.Browse | pages/Campaigns.tsx:31-63 | a permutation of the selected campaigns, sorted by the chosen key |
| Campaigns.BrowseMembers | pages/Campaigns.tsx:31-63 | a campaign is listed exactly when it passes both filters |
| Campaigns.DefaultsShowEverything | pages/Campaigns.tsx:18-20 | with the defaults, every campaign is listed once |
| Campaigns.NewestFirst | pages/Campaigns.tsx:50-51 | "newest" lists later start dates first |
| Campaigns.EndingSoonFirst | pages/Campaigns.tsx:52-53 | "ending soon" lists earlier end dates first |
| Campaigns.MostFundedFirst | pages/Campaigns.tsx:54-57 | "most funded" lists higher funded ratios first |
| Campaigns.CampaignsPage.constructor | pages/Campaigns.tsx:14-20 | an empty list, loading, no query, "All", newest first |
| Campaigns.CampaignsPage.Mount | pages/Campaigns.tsx:23-29 | only APPROVED campaigns of the service are loaded; the filters are kept |
| Campaigns.CampaignsPage.Shown | pages/Campaigns.tsx:31-63 | the grid shows a permutation of the selected campaigns, sorted by the current option |
| CreateCampaign.Progress | pages/CreateCampaign.tsx:51 | within (0, 100] on a step, and 100 exactly on the last |
| CreateCampaign.ProgressIncreasing | pages/CreateCampaign.tsx:51 | a later step shows a longer bar |
| CreateCampaign.StepGuard | pages/CreateCampaign.tsx:71-74 | the alert of a step exactly when its fields are missing: category, organizer name, goal or end date, cover image; none for the story step |
| CreateCampaign.GuardsMakeComplete | pages/CreateCampaign.tsx:69-91 | a form past steps one to four with a title and a story is complete |
| CreateCampaign.CompleteFormKept | pages/CreateCampaign.tsx:93-100 | a complete form reaches the service intact: no fallback of the service is used |
| CreateCampaign.NegativeGoalKept | pages/CreateCampaign.tsx:98 | nothing checks the goal's sign: a typed "-5000" creates a campaign with target -5000 |
| CreateCampaign.DefaultEndDate | pages/CreateCampaign.tsx:64-66 | a midnight, more than 29 and at most 30 days ahead |
| CreateCampaign.AddImage | pages/CreateCampaign.tsx:119 | the new image first, the previous ones after it, at most four |
| CreateCampaign.RemoveAt | pages/CreateCampaign.tsx:130-132 | the image at the index removed; an index out of range removes nothing |
| CreateCampaign.EditKeepsEarlierSteps | pages/CreateCampaign.tsx:456-460 | an edit through a step's inputs leaves every earlier step's check as it was |
| CreateCampaign.ImagesOnlyMatterOnMedia | pages/CreateCampaign.tsx:71-74 | the images matter to the media step's check alone |
| CreateCampaign.Wizard.constructor | pages/CreateCampaign.tsx:27-48 | step 1 and the empty form, with Uganda as the country |
| CreateCampaign.Wizard.Mount | pages/CreateCampaign.tsx:54-67 | without a user the wizard goes to the login page; otherwise the organizer is the user; the end date defaults to thirty days ahead |
| CreateCampaign.Wizard.Edit | pages/CreateCampaign.tsx:136-420 | an edit through the current step's inputs keeps the wizard's invariant: every earlier step is filled in |
| CreateCampaign.Wizard.HandleNext | pages/CreateCampaign.tsx:69-82 | a step with missing fields raises its alert and changes nothing; otherwise the wizard moves on, and from the last step submits; a campaign is created only from a complete form |
| CreateCampaign.Wizard.HandleSubmit | pages/CreateCampaign.tsx:90-110 | without a title or story the alert is raised and nothing is created; otherwise one campaign made from the form is added (its target the typed goal, sign included, with no positivity check) and the wizard goes to the dashboard |
| CreateCampaign.Wizard.HandleBack | pages/CreateCampaign.tsx:84-88 | one step back, never before the first |
| CreateCampaign.Wizard.HandleImageUpload | pages/CreateCampaign.tsx:113-128 | a failed upload raises its alert and keeps the images; a finished one puts the image first, at most four kept |
| CreateCampaign.Wizard.RemoveImage | pages/CreateCampaign.tsx:130-132 | the image at the index is removed |

## Left out

- Timers are left out: `setTimeout` delays, the notifications that hide themselves, and the pledge modal closing after 3 seconds. `Dashboard.DashboardPage.HideNotification` stands for the notification timer.
- The interleavings of asynchronous calls are left out. Each handler runs to completion, in one step.
- Only the in-memory backend is modelled. `services/supabaseService.ts` and the switch in `services/api.ts` are not part of this model.
- Authentication (sign up, sign in, sign out) and image upload are left out. An upload's outcome is a parameter of `CreateCampaign.Wizard.HandleImageUpload`.
- The mock's `subscribeToCampaignUpdates` and `subscribeToAllCampaignUpdates` do nothing. The model takes realtime payloads as method parameters and records which channels are open.
- The clock, `Date.now()` and the calendar are parameters. The month boundaries of the growth figure are given, and their calendar properties are stated as a predicate. Daylight saving in the +30 days default is ignored.
- Floating point is left out. `Number()` of a non-numeric string, which gives NaN, is read as 0.
- CreateCampaign.Wizard.HandleSubmit, CreateCampaign.Wizard.HandleNext: the goal is read as an integer with an optional sign. A decimal point, an exponent ("1e6") or surrounding spaces, which `Number` accepts, are read as 0.
- CampaignDetails.DetailsPage.HandleAction, CampaignDetails.DetailsPage.HandlePaymentSuccess: the typed amount is read the same way, so "5e3" or "500.5" is read as 0.
- ProgressBar.RaisedPercent, ProgressBar.PledgedPercent: a zero target is excluded. The code then divides by zero, and a width becomes 100, -Infinity or NaN.
- Dates are midnight milliseconds: a date string's text and time zone are not modelled.
- HTML form validation is left out: the `required` attributes and the amount field's `min`.
- The dashboard's error paths are left out (the setup-error screen and the catch that redirects).
- The seed campaigns' HTML descriptions are shortened.
- Pages are rendered only where a value is computed. Layout, styling and icons are left out.
- `Campaigns.FundedRatio`: a zero target, which gives an infinite or NaN ratio in the code, is ranked as 0.
- `Campaigns.Browse`: sorting is stable. The comparator results of NaN or infinite keys are not modelled.
- `Dashboard.DashboardPage.Mount`: the session answers are a parameter, not the service's current user.
- `AdminDashboard.AdminPage.HandleStatusUpdate`: the mock service stores no status change. The table therefore shows the statuses it had.
- `CreateCampaign.Wizard.Mount`: the organizer's name is filled in together with the end date. In the code the user lookup may resolve later.
- `CreateCampaign.Wizard.Edit`: an edit is one step with any of the current step's fields. The code changes one field per keystroke or click.
- Aliasing is not modelled. The code shares campaign objects between the list and `campaigns[i].pledgedAmount += amount`; the model copies them.
- The model follows the code where the product description promises more than the code does. The description promises duplicate-pledge rejection, a 500 UGX minimum, funding only for APPROVED campaigns, pledge expiry and pledge fulfilment. None of these is in the code.

## Findings

| source | as written | input that shows it | evidently intended | confidence | as-written member | corrected member |
|---|---|---|---|---|---|---|
| pages/Dashboard.tsx:640-643 | "Max Level!" is shown whenever `progressToNextLevel === 100`, and `calculateUserLevel` rounds the progress | a total impact of 99,999 UGX: level 1 (Bronze) with progress rounded to 100, captioned "Max Level!" | "Max Level!" only on the top rung (level 7) | high; not executed | Dashboard.MaxLevelShownAtBronze | Dashboard.MaxLevelIffTopRung |
| lib/dashboardHelpers.ts:143-168 | last month ends at `new Date(y, m, 0)`, the midnight that starts its last day, compared with `<=` | a donation made at 23:00 on the last day of last month, with nothing this month: it counts in neither month, and the growth is 0 | last month runs up to the first midnight of this month, so the growth is -100 | high; not executed | Metrics.LastDayOfMonthDropped | Metrics.MonthsSplitImpact |

The dashboard's metrics keep the growth figure as the code computes it, so
that they describe what the page shows. The corrected figure is
`Metrics.MonthlyGrowth`. Its two months split time without a gap
(`Metrics.MonthsPartitionTime`), so their impacts add up to everything
counted since last month began (`Metrics.MonthsSplitImpact`).
