# SEO toolkit: a Dafny model of its request handlers

This project models the server-side core of a small SEO software-as-a-service
application. The application has five parts:

- four page-analysis tools: the SEO scanner, the quick SEO scan, the keyword
  heat map and the citation checker;
- accounts: registration, login, the session-token cookie and the route guard;
- subscriptions: plan checkout, the payment-provider webhook and the monthly
  usage quota;
- the dashboard read models: statistics, analytics charts and the merged
  analysis history;
- the notification centre's client state.

Each route handler is a function (or a method where it changes a store) from
its request and the results of its outside calls to a response. The outside
calls are the HTML fetch, the database, the token library and the payment
provider. Each result is a parameter, and a thrown error is a constructor of
that parameter's type. The account store and the notification centre change
state step by step, so they are classes with `modifies` clauses.

The modules are:

- `Common`: `Option`, JavaScript truthiness of optional strings, and error
  responses.
- `Strings`: the string operations the handlers rely on (`startsWith`,
  `includes`, `indexOf`, `split`, `join`, `trim`, and `toLowerCase` and
  `toUpperCase` restricted to ASCII letters).
- `Seqs`: counting, filtering and `Math.round` of a non-negative quotient.
- `SeoScanner`, `SeoScan`, `KeywordHeatmap`, `CitationManagement`,
  `SeoScannerAnalyze`: the analysis routes.
- `Cookies`, `RouteGuard`, `Login`, `Accounts`: the session cookie, the route
  guard, login, registration, subscription creation and the webhook.
- `SubscriptionLimits`: the monthly quota check.
- `DashboardStats`, `Analytics`, `AnalysisHistory`, `NotificationCenter`: the
  dashboard.

Some behaviours of the code are kept on purpose, because the model follows
the code:

- The subscription-creation route never puts the chosen plan into the
  checkout's metadata. The webhook therefore records every completed checkout
  under its default plan, `basic`; see `Accounts.CheckoutPlan`.
- The cookie parser takes the text after the first `token=` and cuts it at
  the first ';', at the next `token=` or at the end of the header, whichever
  comes first. It does not parse cookie pairs, so a cookie named `xtoken`
  is read as the session token.
- The create route answers an unverifiable token with a 500. It does not
  answer with a 401.

## Model

| member | source | states |
|---|---|---|
| SeoScanner.Extract | src/app/api/seo-scanner/route.ts:22-30 | images without alt never exceed the images; internal plus external anchors equal all anchors; title, meta description and heading counts are copied from the page |
| SeoScanner.ExternalAreTheRest | src/app/api/seo-scanner/route.ts:29-30 | the external count is the number of anchors that are not internal |
| SeoScanner.AnchorWithoutHrefIsExternal | src/app/api/seo-scanner/route.ts:29-30 | adding an anchor without href adds one external link and no internal one |
| SeoScanner.EmptyAltIsNotMissing | src/app/api/seo-scanner/route.ts:27 | an image with `alt=""` is not counted as missing alt text; an image with no alt attribute is |
| SeoScanner.Rules | src/app/api/seo-scanner/route.ts:33-48 | the deduction table has seven rows in source order: the five issue rows carry a message, the two link rows carry none |
| SeoScanner.Messages | src/app/api/seo-scanner/route.ts:33-38 | there are never more messages than rows, and none exactly when no applicable row carries a message |
| SeoScanner.Deduction | src/app/api/seo-scanner/route.ts:41-48 | nothing is deducted exactly when every applicable row costs nothing |
| SeoScanner.Score | src/app/api/seo-scanner/route.ts:33-68 | the issues are the messages of the applicable rules in source order; the score is 100 minus their deductions and lies in 20..100; at most four issues; the score is 100 exactly when there is no issue and both link kinds occur; the other report fields are the findings |
| SeoScanner.Post | src/app/api/seo-scanner/route.ts:9-75 | a missing url gives a 400 with 'URL is required'; a failed fetch gives a 500 with the error's message, or 'Failed to analyze URL' when it is empty; otherwise the report holds the url, every count extracted from the page (title, meta description, h1, h2, images, images without alt, links, internal, external), the messages of the rule table and 100 minus its deductions, a score in 20..100 |
| SeoScanner.DeductionBounds | src/app/api/seo-scanner/route.ts:33-48 | deductions total at most 80 and at most four messages are produced; 'no H1' and 'multiple H1' never occur together |
| SeoScanner.MessagesShape | src/app/api/seo-scanner/route.ts:33-38 | the issues are, in this order: missing title, missing meta description, no h1, multiple h1 and images without alt, each present exactly when its condition holds |
| SeoScanner.IssueIff | src/app/api/seo-scanner/route.ts:33-38 | each issue is reported if and only if its condition holds (empty title, falsy meta description, no h1, several h1, images without alt) |
| SeoScanner.PerfectScore | src/app/api/seo-scanner/route.ts:41-48 | no deduction exactly when no rule fires and both internal and external links exist |
| SeoScanner.BarePageScoresAtMost50 | src/app/api/seo-scanner/route.ts:41-44 | a page without title, meta description and h1 scores at most 50 |
| SeoScan.SplitSpaces | src/app/api/seo-scan/route.ts:20 | splitting on white-space runs gives at least one piece |
| SeoScan.PiecesHaveNoSpace | src/app/api/seo-scan/route.ts:20 | no piece of the split holds a white-space character |
| SeoScan.PiecesAreRunsPlusOne | src/app/api/seo-scan/route.ts:20 | the number of pieces is the number of white-space runs plus one |
| SeoScan.LeadingSpaceGivesEmptyPiece | src/app/api/seo-scan/route.ts:20 | text that starts with white space yields an empty first piece |
| SeoScan.TrailingSpaceGivesEmptyPiece | src/app/api/seo-scan/route.ts:20 | text that ends with white space yields an empty last piece |
| SeoScan.WordCount | src/app/api/seo-scan/route.ts:20 | the word count is at least one, and one for empty text |
| SeoScan.WordCountExamples | src/app/api/seo-scan/route.ts:20 | the empty body counts one word and " a " counts three |
| SeoScan.Summarize | src/app/api/seo-scan/route.ts:17-28 | the summary has the url, the title, the meta description or '' when it is absent, the first h1's text or '', and the word count as white-space runs plus one |
| SeoScan.Post | src/app/api/seo-scan/route.ts:8-31 | a missing url gives a 400 with 'URL tidak boleh kosong'; a failed fetch gives a 500 with the error's message, or 'Terjadi kesalahan' when it is empty; otherwise the summary of that url and page, whose word count is the number of white-space runs in the body text plus one |
| Strings.ToLower | src/app/api/keyword-heatmap/route.ts:15 | lower-casing keeps the length, turns each ASCII upper-case letter into its lower-case letter and keeps every other character |
| KeywordHeatmap.Normalize | src/app/api/keyword-heatmap/route.ts:18 | a keyword is the piece with its white-space ends removed, lower-cased: character by character it is the lower-cased stretch of the piece that starts after the leading white space, everything outside that stretch is white space, and it has no white space at either end, is lower case and has no comma unless the piece had one |
| KeywordHeatmap.ParseKeywords | src/app/api/keyword-heatmap/route.ts:18 | every parsed keyword is non-empty, trimmed and lower-case; there are no more keywords than comma-separated pieces |
| KeywordHeatmap.KeywordMembers | src/app/api/keyword-heatmap/route.ts:18 | a string is a parsed keyword exactly when it is the non-empty normalisation of some comma-separated piece |
| KeywordHeatmap.MatchesFrom | src/app/api/keyword-heatmap/route.ts:21-22 | the number of matches a global search finds from a position is 0 exactly when no whole-word match starts at that position or later |
| KeywordHeatmap.Occurrences | src/app/api/keyword-heatmap/route.ts:21-22 | the count is 0 exactly when the keyword has no whole-word match in the text (`match` returning null), and count times keyword length is at most the text length |
| KeywordHeatmap.MatchesFit | src/app/api/keyword-heatmap/route.ts:21-22 | the non-overlapping matches of a keyword fit in the text: count times keyword length is at most the text length |
| KeywordHeatmap.SeoExample | src/app/api/keyword-heatmap/route.ts:21-22 | 'seo' is counted once in 'seodoc seo': the word boundaries exclude the prefix match |
| KeywordHeatmap.CountKeywords | src/app/api/keyword-heatmap/route.ts:19-23 | the result has exactly the parsed keywords as keys, each mapped to its whole-word occurrence count in the text, and each count fits in the text |
| KeywordHeatmap.Post | src/app/api/keyword-heatmap/route.ts:8-30 | a missing url or keyword list gives a 400 with 'URL dan keyword wajib diisi'; a failed fetch gives a 500 with the error's message, or 'Terjadi kesalahan' when it is empty; otherwise the counts are over the lower-cased page text |
| KeywordHeatmap.CaseInsensitive | src/app/api/keyword-heatmap/route.ts:15-22 | two bodies that differ only in the case of their (ASCII) letters give the same count for every keyword |
| KeywordHeatmap.UpperCaseBodyCountsAlike | src/app/api/keyword-heatmap/route.ts:15-22 | an upper-cased body gives the same counts as the original body |
| CitationManagement.Selected | src/app/api/citation-management/route.ts:42-45 | the selector picks no more hrefs than there are anchors, and each href it picks contains the platform address |
| CitationManagement.SelectedFirst | src/app/api/citation-management/route.ts:42-45 | the selection is non-empty exactly when some href contains the platform address, and its first element is the first such href |
| CitationManagement.Check | src/app/api/citation-management/route.ts:41-47 | after one platform block, the platform is found exactly when some href contains its address, with the first such href as its url and '' otherwise; the other platforms are unchanged |
| CitationManagement.Detect | src/app/api/citation-management/route.ts:18-74 | starting from all not found, every one of the five platforms is detected as above |
| CitationManagement.FoundCount | src/app/api/citation-management/route.ts:78 | at most five platforms are found |
| CitationManagement.Score | src/app/api/citation-management/route.ts:77-79 | the score is 20 points per platform found: between 0 and 100 and a multiple of 20 |
| CitationManagement.ScoreMonotone | src/app/api/citation-management/route.ts:77-79 | finding more platforms never lowers the score |
| CitationManagement.OneHrefTwoPlatforms | src/app/api/citation-management/route.ts:49-59 | one href can be selected for two platforms |
| CitationManagement.Post | src/app/api/citation-management/route.ts:8-91 | a missing url gives a 400 with 'URL is required'; a failed fetch gives a 500 with the error's message, or 'Failed to analyze citations' when it is empty; otherwise every platform is detected and the score is 20 per platform found |
| SeoScannerAnalyze.Summarize | src/app/api/seo-scanner/analyze/route.ts:51-69 | the stored record copies url, title, description and score; h1 is the number of h1 tags; images without alt never exceed the images; internal plus external links equal the links; issues are the messages |
| SeoScannerAnalyze.SummaryCounts | src/app/api/seo-scanner/analyze/route.ts:58-66 | each stored count is positive exactly when such an image or link exists |
| SeoScannerAnalyze.SampleSummary | src/app/api/seo-scanner/analyze/route.ts:24-68 | the fixed sample is stored with 2 h1 tags, 1 of 2 images without alt, 0 internal and 2 external links, its two issue messages and score 85 |
| SeoScannerAnalyze.Post | src/app/api/seo-scanner/analyze/route.ts:12-86 | a missing url gives a 400 with 'URL is required'; a failed store write gives a 500 with 'Failed to analyze URL'; otherwise the fixed sample analysis for that url is returned and exactly its summary is stored under the fixed user id 'current-user-id' |
| SubscriptionLimits.Limit | src/middleware/subscription.ts:7-23 | the limit is unlimited (-1) exactly for pro, otherwise positive |
| SubscriptionLimits.CheckAsWritten | src/middleware/subscription.ts:37-104 | the check as written lets a plan named like an inherited object property through whenever its count is known |
| SubscriptionLimits.Check | src/middleware/subscription.ts:37-104 | allowed only for one of the three plans and then with no message; no subscription, a failed lookup and an unknown plan each deny with their message; pro is always allowed; free and basic are allowed exactly below the limit, otherwise 'Monthly limit reached', and a failed usage count denies them with 'Failed to check subscription limit' |
| SubscriptionLimits.CheckAgrees | src/middleware/subscription.ts:44-50 | the corrected and the written check agree on every plan that is not an inherited name |
| SubscriptionLimits.InheritedPlanPasses | src/middleware/subscription.ts:44-90 | a plan 'toString' is allowed by the written check and denied by the corrected one |
| SubscriptionLimits.AllowedMonotone | src/middleware/subscription.ts:90-97 | if a usage count is allowed, every smaller count is too |
| SubscriptionLimits.FreeAndBasicQuota | src/middleware/subscription.ts:7-17 | free allows exactly counts 0..4 and basic exactly 0..49 |
| SubscriptionLimits.ProUnlimited | src/middleware/subscription.ts:48-50 | pro is allowed whatever the count, including a failed count |
| Cookies.Token | src/app/api/subscription/create/route.ts:20 | no header, or no `token=` in it, gives no token; otherwise the token is read after the first `token=` and ends at the first ';', at the next `token=` or at the end of the header, whichever comes first |
| Cookies.TokenExtentUnique | src/app/api/subscription/create/route.ts:20 | the text after `token=` determines that extent uniquely |
| Cookies.PlainCookie | src/app/api/subscription/create/route.ts:20 | 'token=ab;x=1' yields 'ab' |
| Cookies.SuffixNameMatches | src/app/api/dashboard/stats/route.ts:29 | a cookie named 'xtoken' is read as the session token |
| Cookies.MissingOrEmptyToken | src/app/api/subscription/create/route.ts:20-27 | a header without `token=`, an empty token value and no header all fail the `!token` test |
| Cookies.NoKeyNoToken | src/app/api/subscription/create/route.ts:20 | a header without `token=` ('theme=dark') gives no token |
| Cookies.EmptyValueNoToken | src/app/api/subscription/create/route.ts:20 | 'token=;theme=dark' gives the empty token, which fails the `!token` test |
| Accounts.Public | src/app/api/auth/register/route.ts:50-52 | the public user keeps the id, email and name and has no password |
| Accounts.IdForInjective | src/app/api/auth/register/route.ts:35-47 | distinct counter values give distinct user ids |
| Accounts.Price | src/app/api/subscription/create/route.ts:11-15 | free costs 0 and is the only free plan; basic 2900 and pro 9900 cents |
| Accounts.ProductName | src/app/api/subscription/create/route.ts:87 | the product name is the plan with its first letter upper-cased, followed by ' Plan' |
| Accounts.ProductNames | src/app/api/subscription/create/route.ts:87 | the paid plans are sold as 'Basic Plan' and 'Pro Plan' |
| Accounts.FreeSubscription | src/app/api/subscription/create/route.ts:56-74 | switching to free gives an active free plan with no end date; an existing subscription keeps its start date and a new one starts now |
| Accounts.CheckoutPlan | src/app/api/webhooks/stripe/route.ts:61 | a truthy metadata plan is used as is; otherwise the plan is 'basic' |
| Accounts.UpdatedStatus | src/app/api/webhooks/stripe/route.ts:111 | the stored status is 'active' exactly when the provider's status is 'active', and 'cancelled' otherwise |
| Accounts.EndDate | src/app/api/webhooks/stripe/route.ts:112 | an end date exists exactly when cancel_at is present and non-zero, in milliseconds |
| Accounts.ApplyEvent | src/app/api/webhooks/stripe/route.ts:57-119 | an event never drops a subscription, never creates one for an unknown user, and changes no user other than the one it names |
| Accounts.CheckoutActivates | src/app/api/webhooks/stripe/route.ts:58-81 | a completed checkout makes the user's subscription active on the metadata plan, starting now, with no end date |
| Accounts.CheckoutStoresAnyPlan | src/app/api/webhooks/stripe/route.ts:61-78 | the checkout plan is stored without a check against the plan table |
| Accounts.DeletionIdempotent | src/app/api/webhooks/stripe/route.ts:83-99 | a deletion leaves an active free plan with no end date, and repeating it changes nothing |
| Accounts.DeletionResetsToFree | src/app/api/webhooks/stripe/route.ts:83-99 | a deletion for a known subscription stores exactly the old row with plan free, status active and no end date, and changes nothing else; one for an unknown subscription throws; one without a user id changes nothing |
| Accounts.UpdateKeepsPlan | src/app/api/webhooks/stripe/route.ts:102-117 | an update event keeps every plan and start date |
| Accounts.UpdateSetsStatusAndEnd | src/app/api/webhooks/stripe/route.ts:102-117 | an update for a known subscription stores the mapped status and the end date in milliseconds; one for an unknown subscription throws; one without a user id is ignored |
| Accounts.OtherEventsChangeNothing | src/app/api/webhooks/stripe/route.ts:57-121 | events of any other type leave the subscriptions unchanged |
| Accounts.AccountStore.constructor | src/app/api/auth/register/route.ts:20-47 | the store starts empty and valid |
| Accounts.AccountStore.Register | src/app/api/auth/register/route.ts:12-57 | a missing email or password gives a 400; a failed lookup gives a 500 and changes nothing; a taken email gives a 400 'User already exists'; a failed create gives a 500 and changes nothing; otherwise one user with a fresh id and the hashed password is added together with an active free subscription, and the store stays valid with emails unique |
| Accounts.AccountStore.CreateSubscription | src/app/api/subscription/create/route.ts:17-111 | no token gives a 401; a token that fails verification a 500; an invalid plan a 400; a token without a user id a 500; an unknown user a 404; free writes the free subscription, or gives a 500 unchanged when the write fails; a paid plan opens a checkout at the plan's name and price without changing the store, or gives a 500 when the provider fails |
| Accounts.AccountStore.HandleWebhook | src/app/api/webhooks/stripe/route.ts:29-128 | no signature gives a 400; a bad signature a 400 'Webhook Error: …'; otherwise the subscriptions become the event applied to them, or are unchanged with a 500 when the store throws |
| Login.PlanClaim | src/app/api/auth/login/route.ts:50 | the claimed plan is the subscription's plan when it is non-empty, and 'free' when there is no subscription |
| Login.Post | src/app/api/auth/login/route.ts:13-62 | missing credentials give a 400; an unknown user and a wrong password both give the same 401; the login succeeds exactly when both credentials are truthy, the user exists and the password matches, and then returns the public user and a token signed over its id, email and plan |
| Login.SameAnswerForUnknownAndWrong | src/app/api/auth/login/route.ts:28-43 | an unknown email and a wrong password receive the identical response |
| Login.RegisteredUserClaimsFree | src/app/api/auth/login/route.ts:46-54 | a freshly registered user logs in with a 'free' plan claim |
| RouteGuard.Decide | src/middleware.ts:5-58 | public API paths and unguarded pages pass; other API paths need a truthy, valid token or get a 401; dashboard and tools pages need one or redirect to login |
| RouteGuard.GuardSound | src/middleware.ts:21-55 | a guarded path passes only with a truthy token that verifies |
| RouteGuard.AnswerKinds | src/middleware.ts:10-55 | API paths never redirect and pages never answer 401 |
| RouteGuard.PublicPaths | src/middleware.ts:12-17 | the scanner and auth routes are public; the analyze, seo-scan and bare '/api/auth' routes are not |
| DashboardStats.AverageAsWritten | src/app/api/dashboard/stats/route.ts:57-63 | the average as written is null exactly when there are heat maps but no scored rows |
| DashboardStats.HeatMapsOnlyGiveNull | src/app/api/dashboard/stats/route.ts:57-63 | a user with one heat map and nothing else gets a null average |
| DashboardStats.Average | src/app/api/dashboard/stats/route.ts:57-63 | the average is 0 without scored rows, otherwise the mean of the SEO and citation scores rounded half up |
| DashboardStats.AverageAgrees | src/app/api/dashboard/stats/route.ts:57-63 | with at least one scored row the written and the corrected average agree |
| DashboardStats.AverageInRange | src/app/api/dashboard/stats/route.ts:57-63 | with every score in 0..100 the average is in 0..100 |
| DashboardStats.FoundCount | src/app/api/dashboard/stats/route.ts:72 | the found platforms of one check never exceed its entries, and are zero exactly when no entry is found |
| DashboardStats.KeywordTotal | src/app/api/dashboard/stats/route.ts:65-68 | the keyword total is zero exactly when every heat map has no keyword |
| DashboardStats.FoundTotal | src/app/api/dashboard/stats/route.ts:70-73 | the found-citation total is zero exactly when no platform of any check is found |
| DashboardStats.KeywordTotalAdds | src/app/api/dashboard/stats/route.ts:65-68 | the keyword total of two lists of heat maps is the sum of their totals |
| DashboardStats.FoundTotalAdds | src/app/api/dashboard/stats/route.ts:70-73 | the found-citation total of two lists of checks is the sum of their totals |
| DashboardStats.Get | src/app/api/dashboard/stats/route.ts:26-88 | no token gives a 401; a token that fails verification a 500; otherwise the total of all three kinds of analysis, the average as written (null when there are only heat maps), the keyword total and the found-citation total |
| DashboardStats.GetCorrected | src/app/api/dashboard/stats/route.ts:26-88 | the same answers with the corrected average, which is never null |
| DashboardStats.GetAgrees | src/app/api/dashboard/stats/route.ts:55-63 | the written and the corrected route differ exactly for a verified user with heat maps and no scored analysis |
| Analytics.Dates | src/app/api/analytics/route.ts:66-70 | thirty consecutive days ending today |
| Analytics.FirstOn | src/app/api/analytics/route.ts:73-74 | the index found is the first row on that day; none means no row is on that day |
| Analytics.Series | src/app/api/analytics/route.ts:72-90 | one chart point per date, for the ranking, traffic and page-speed series over the scans and the backlink series over the citation checks (each point is stated by SeriesEntry) |
| Analytics.SeriesEntry | src/app/api/analytics/route.ts:72-90 | each chart point is the value of the first row made on that day (a scan's field, or a citation check's backlink total), or null when there is none |
| Analytics.FirstScanWins | src/app/api/analytics/route.ts:72-75 | with two scans today, the earlier-listed one is charted |
| Analytics.OwnedBy | src/app/api/analytics/route.ts:27-63 | with an owner, only that user's rows (scans or citation checks) are kept, and all of them; without one, the filter keeps every row |
| Analytics.ChartedScansAsWritten | src/app/api/analytics/route.ts:19-37 | as written, a token without an `id` claim charts every scan of the window; with one, only scans of that id |
| Analytics.ChartedScans | src/app/api/analytics/route.ts:19-37 | the charts use only the token's own user's scans |
| Analytics.OtherUsersLeakAsWritten | src/app/api/analytics/route.ts:19-37 | as written, a login token (which has `userId` but no `id`) charts another user's scan; the corrected version does not |
| Analytics.ChartsOver | src/app/api/analytics/route.ts:65-98 | thirty dates ending today and four series of thirty points: rankings, traffic and page speed over the given scans, backlinks over the given citation checks |
| Analytics.Get | src/app/api/analytics/route.ts:8-105 | no token gives a 401; a token that fails verification a 500 with 'Failed to fetch analytics data'; otherwise the charts over the scans and citation checks filtered by the token's `id` claim |
| Analytics.GetCorrected | src/app/api/analytics/route.ts:8-105 | the same answers, with the rows filtered by the token's `userId` claim |
| Analytics.LoginTokenChartsEveryone | src/app/api/analytics/route.ts:19-63 | as written, a login token (`userId` and no `id`) gets the charts over every user's rows |
| Analytics.GetAgrees | src/app/api/analytics/route.ts:19-20 | where the `id` and `userId` claims agree, the written and the corrected route give the same answer |
| Analytics.CorrectedChartsOwnRows | src/app/api/analytics/route.ts:72-75 | in the corrected route every charted ranking is the ranking of one of the user's own scans on that date |
| AnalysisHistory.Tag | src/components/dashboard/AnalysisHistory.tsx:55-57 | each row is tagged with its kind, in order |
| AnalysisHistory.Insert | src/components/dashboard/AnalysisHistory.tsx:58 | insertion adds exactly the new entry |
| AnalysisHistory.InsertNewestFirst | src/components/dashboard/AnalysisHistory.tsx:58 | inserting into a newest-first list keeps it newest first |
| AnalysisHistory.SortNewestFirst | src/components/dashboard/AnalysisHistory.tsx:58 | the sort is a permutation ordered by creation time, newest first |
| AnalysisHistory.Merge | src/components/dashboard/AnalysisHistory.tsx:54-58 | the merged list holds exactly the three tagged lists, newest first |
| AnalysisHistory.FilterNewestFirst | src/components/dashboard/AnalysisHistory.tsx:116-130 | filtering a newest-first list keeps it newest first |
| AnalysisHistory.TabHoldsOneKind | src/components/dashboard/AnalysisHistory.tsx:116-130 | each tab holds exactly the rows of its kind, newest first |
| AnalysisHistory.FilterOfTags | src/components/dashboard/AnalysisHistory.tsx:116-130 | filtering the tagged lists by a kind gives that kind's tagged rows |
| AnalysisHistory.TypeLabel | src/components/dashboard/AnalysisHistory.tsx:74-85 | the labels of the three kinds |
| AnalysisHistory.LabelsDistinct | src/components/dashboard/AnalysisHistory.tsx:74-85 | different kinds have different labels |
| AnalysisHistory.ScoreColor | src/components/dashboard/AnalysisHistory.tsx:87-91 | green exactly from 80, yellow exactly from 60 below 80, red exactly below 60 |
| AnalysisHistory.ColorMonotone | src/components/dashboard/AnalysisHistory.tsx:87-91 | a higher score never gets a worse colour |
| AnalysisHistory.AfterFetch | src/components/dashboard/AnalysisHistory.tsx:46-72 | a failed fetch keeps the current list; a successful one replaces it with the merge |
| NotificationCenter.MarkRead | src/components/shared/NotificationCenter.tsx:64-68 | the notifications with that id become read and all others are unchanged |
| NotificationCenter.MarkAllRead | src/components/shared/NotificationCenter.tsx:82-84 | every notification becomes read and nothing else changes |
| NotificationCenter.MarkReadCount | src/components/shared/NotificationCenter.tsx:64-69 | marking an id read lowers the unread count by the number of unread notifications with that id |
| NotificationCenter.MarkAllReadCount | src/components/shared/NotificationCenter.tsx:82-85 | after marking all read none is unread |
| NotificationCenter.MarkUniqueUnread | src/components/shared/NotificationCenter.tsx:64-69 | marking a unique unread notification lowers the unread count by exactly one |
| NotificationCenter.Center.constructor | src/components/shared/NotificationCenter.tsx:37-38 | the centre starts with no notifications and a zero count |
| NotificationCenter.Center.Fetch | src/components/shared/NotificationCenter.tsx:45-56 | a successful fetch replaces the list and sets the count to the unread notifications; a failure changes nothing |
| NotificationCenter.Center.MarkAsRead | src/components/shared/NotificationCenter.tsx:57-73 | on success the id is marked read and the count drops by one but not below zero, consistent when the id was unique and unread; a failure changes nothing |
| NotificationCenter.Center.MarkAllAsRead | src/components/shared/NotificationCenter.tsx:75-89 | on success every notification is read and the count is zero; a failure changes nothing |

## Left out

- HTML parsing and fetching: each analysis route receives the already parsed page (title, meta description, heading counts, images, anchors and body text), or the fetch error.
- SeoScanner.Extract: the page's origin arrives with the fetch result (`Fetched(origin, page)`); the model does not derive it from the url as `new URL(url).origin` does (src/app/api/seo-scanner/route.ts:29), so it does not promise that the origin matches the url.
- The regular-expression engine: the keyword regex `\bkw\b` is modelled by its meaning (non-overlapping matches bounded by word boundaries). The source escapes the keyword's metacharacters (src/app/api/keyword-heatmap/route.ts:21), so the keyword matches as literal text, which is what `KeywordHeatmap.MatchAt` states.
- KeywordHeatmap.CountKeywords: does not model that a keyword spelled `__proto__` is silently dropped from the response object, because Dafny maps have no prototype.
- Strings.ToLower: maps only the ASCII letters A-Z, while JavaScript's `toLowerCase` maps every Unicode upper-case letter (a body "NAÏVE" with keyword "naïve" counts 1 in the source and 0 in the model); Unicode case tables are not modelled.
- KeywordHeatmap.Normalize: lower-cases keywords with the ASCII-only `Strings.ToLower`, so a keyword with non-ASCII upper-case letters keeps them.
- KeywordHeatmap.Post: counts over the body lower-cased with the ASCII-only `Strings.ToLower`, so non-ASCII upper-case letters in the body are not folded.
- Floating point: `Math.round` is modelled on the exact quotient of non-negative integers; `NaN` only where the source produces it (the dashboard average).
- Database, token library and payment provider: each is a parameter (the lookup result, the verified claims, the constructed event, or a flag saying whether the call threw). A thrown error becomes a 500 outcome (`RegisterCrashed`, `CreateCrashed`, `WebhookCrashed`, `Crashed`) that changes nothing and does not carry the error's message text. Registration's lookup and create, plan selection's verification, subscription write and checkout session, the webhook's store calls and the statistics route's verification have such a failure input.
- Login.Post: does not model the user lookup or the password comparison throwing (the route's catch-all 500); the lookup result and the comparison are given as values.
- DashboardStats.Get: does not model the store queries throwing; only a failed token verification leads to the 500 answer.
- Analytics.Get: does not model the store queries throwing; only a failed token verification leads to the 500 answer.
- Password hashing and comparison are parameters; bcrypt and JWT signing are not modelled.
- Database identifiers are modelled as decimal strings of a counter.
- The clock is a parameter `now` or `today`; dates are whole days in the analytics charts.
- Next.js' middleware `matcher` configuration (src/middleware.ts:60-66): the route guard is modelled for every path.
- The stats route reads the JSON-encoded `keywords` and `citations` columns as objects; the model keeps the decoded maps.
- AnalysisHistory.SortNewestFirst: does not model the stability of `Array.prototype.sort` among entries with equal timestamps; it is specified as a newest-first permutation.
- React rendering, toasts and loading flags of the dashboard components are not modelled.
- Concurrency between requests (for example two registrations with the same email at once) is not modelled; each handler runs alone on the store.

## Findings

| source | as written | input that shows it | evidently intended | confidence | as-written member | corrected member |
|---|---|---|---|---|---|---|
| src/middleware/subscription.ts:44-90 | the limit is looked up as `PLAN_LIMITS[plan][type]` with no check that `plan` is one of the three plans; an inherited name gives `undefined`, and `count >= undefined` is false, so the request is allowed | a subscription whose plan is 'toString' (the webhook stores any metadata plan) with any usage count | only free, basic and pro have limits; any other plan fails closed | not executed | SubscriptionLimits.CheckAsWritten | SubscriptionLimits.Check |
| src/app/api/dashboard/stats/route.ts:57-63 | the guard counts heat maps, but the average divides by the number of SEO scans plus citation checks | one heat map and no scans or citation checks: 0 / 0 is NaN, sent as null | 0 when there is no scored row | not executed | DashboardStats.AverageAsWritten | DashboardStats.Average |
| src/app/api/analytics/route.ts:19-37 | the user id is read from `decoded.id`, but login signs tokens with `userId` (src/app/api/auth/login/route.ts:48); `where: { userId: undefined }` applies no filter | any logged-in user's token | the charts show only that user's scans and citation checks (`decoded.userId`) | not executed | Analytics.ChartedScansAsWritten | Analytics.ChartedScans |
