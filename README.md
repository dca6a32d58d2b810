# HexaBid ERP — a verified model of its decision logic

HexaBid is a tender-bidding ERP: a React single-page client over a FastAPI
server backed by MongoDB, an LLM, a Selenium scraper of the GeM portal and
document generators.  This project models, in Dafny, the logic underneath
that plumbing, and proves what it promises:

- the application shell: the session store (`user`, `loading`, the token
  persisted under "token"), its start-up restore, `login`, `logout` and the
  route guard (`session.dfy`);
- the page state of the client: the BOQ editor and its totals
  (`boq_editor.dfy`), the tender search, days-left banding and category query
  (`tenders_page.dfy`), mark-as-read and the unread filter
  (`notifications_page.dfy`), the chat transcript (`chat_page.dfy`), support
  ticket badges and form reset (`support_page.dfy`), the document category
  filter (`documents_page.dfy`) and the tender detail handlers
  (`tender_detail_page.dfy`); toasts are a list of notices (`ui.dfy`);
- the competitor model: sigmoid, features, base score, per-competitor threat
  and the market text (`competitor_model.dfy`);
- the GeM scraper's parsing: currency strings with Crore and Lakh, keyword
  category detection, eligibility defaults and the limit/category loop
  (`gem_scraper.dfy`);
- the document generator: EMD and security deposit, and the BOQ worksheet
  cell by cell (`document_generator.dfy`);
- the API server: the users collection with register, login, access-token
  claims and `get_current_user` (`server_auth.dfy`), and BOQ totals, summary
  truncation, the upload suffix check and the query scoping of tenders and
  CRM contacts (`server_records.dfy`).

`wrappers.dfy` (Option, Result), `text.dfy` (the JavaScript and Python string
methods the code calls, on ASCII) and `seqs.dfy` (`filter`, list
comprehensions with a condition, `s[:n]`) are shared helpers.

Foreign code is a parameter: `math.exp` (returning `None` for
`OverflowError`), `math.log10`, Python `float()` and JavaScript `parseFloat`,
bcrypt (the stored hash arrives as an input; `verify` is a parameter), and
JWT `encode`/`decode` (`decode` answers `None` for every `JWTError`).
Backend answers seen by the pages are inputs to the handler methods
(`Option` or `bool` for success or failure).  Clocks and generated ids are
inputs too.

Observations the model makes explicit:

- `DocumentPreparationPage` never sets `selectedTender`, so generating a BOQ
  or a cover letter always ends in the "select a tender" error.
- The scraper's keyword test is a substring test: "Kitchen" is IT Services
  because it contains "it" (`GemScraper.KitchenIsIt`).
- The upload suffix test is case-sensitive: `TENDER.PDF` is refused.
- The API's BOQ total counts a missing quantity as 0, while the worksheet
  generator counts it as 1.
- `get_current_user` does not look at `is_active`.

## Model

| member | source | states |
|---|---|---|
| Session.PhaseOf | frontend/src/App.js:20-21 | the shell is Loading exactly while `loading`, Authenticated exactly when done with a user |
| Session.BearerHeader | frontend/src/App.js:27 | the header is "Bearer " followed by exactly the token (section 2.1 of RFC 6750) |
| Session.Initial | frontend/src/App.js:20-21 | a new shell is loading, with no user and storage as it was |
| Session.RestoreEstablishesConsistency | frontend/src/App.js:23-40 | whatever `/auth/me` answers, restore ends loading, and any user comes with a stored token |
| Session.RestoreWithoutToken | frontend/src/App.js:24-39 | no (or an empty) stored token: no user, loading cleared, storage untouched |
| Session.RestoreFailure | frontend/src/App.js:33-36 | a failed `/auth/me` removes the token and leaves the shell anonymous |
| Session.RestoreSuccess | frontend/src/App.js:29-32 | a successful `/auth/me` authenticates with exactly the returned user and keeps the token |
| Session.AfterRestore | frontend/src/App.js:23-40 | loading always ends; without a token nothing else changes; with one, success holds the user and keeps the token, failure drops the token; from a shell without a user the result is consistent |
| Session.AfterLogin | frontend/src/App.js:42-45 | the token is stored and the user held whatever was there; the result is consistent and, once loaded, authenticated |
| Session.AfterLogout | frontend/src/App.js:47-50 | neither token nor user remains; the result is consistent and, once loaded, anonymous |
| Session.TransitionsPreserveConsistency | frontend/src/App.js:42-50 | login and logout keep the token/user invariant |
| Session.LoginReplacesSession | frontend/src/App.js:42-45 | a second login fully replaces the first |
| Session.LogoutLaws | frontend/src/App.js:47-50 | logout is idempotent; login then logout leaves no token and no user |
| Session.SessionStore.constructor | frontend/src/App.js:20-21 | the store starts in the initial state |
| Session.SessionStore.Restore | frontend/src/App.js:23-40 | the mount effect: new state is the restore transition; a request with the bearer header is made iff a non-empty token is stored |
| Session.SessionStore.Login | frontend/src/App.js:42-45 | stores the token and the user; keeps the invariant |
| Session.SessionStore.Logout | frontend/src/App.js:47-50 | removes the token and the user; keeps the invariant |
| Session.RouteOf | frontend/src/App.js:63-71 | "/login" and "/" are recognised exactly; no protected route shows the login view |
| Session.DecideRoute | frontend/src/App.js:52-71 | only the placeholder while loading; `/login` renders iff anonymous, protected paths render iff signed in, else redirect; `/` redirects by the same test |
| Session.RedirectsSettle | frontend/src/App.js:64-71 | every redirect lands on a path that renders in the same state |
| DocumentPreparation.SubtotalAppend | frontend/src/pages/DocumentPreparationPage.js:76-80 | the subtotal of a concatenation is the sum of the subtotals |
| DocumentPreparation.SubtotalBounds | frontend/src/pages/DocumentPreparationPage.js:76-80 | lines with non-negative amounts give a non-negative subtotal; all-zero lines give 0 |
| DocumentPreparation.SubtotalSingle | frontend/src/pages/DocumentPreparationPage.js:76-80 | one item contributes quantity × rate, unparseable fields as 0 |
| DocumentPreparation.GrandTotalIsSubtotalPlusGst | frontend/src/pages/DocumentPreparationPage.js:238-246 | displayed grand total (1.18 ×) is subtotal plus displayed GST (0.18 ×) |
| DocumentPreparation.WithoutIndexFromMissing | frontend/src/pages/DocumentPreparationPage.js:66-68 | filtering out a position that does not occur keeps the list |
| DocumentPreparation.WithoutIndexFromHit | frontend/src/pages/DocumentPreparationPage.js:66-68 | filtering out an occurring position removes exactly that element |
| DocumentPreparation.RemoveAtIndex | frontend/src/pages/DocumentPreparationPage.js:66-68 | `removeBOQItem(i)` is `items[..i] + items[i+1..]` for a valid i, the identity otherwise |
| DocumentPreparation.AddKeepsSubtotal | frontend/src/pages/DocumentPreparationPage.js:62-80 | appending the blank item leaves the subtotal unchanged |
| DocumentPreparation.SubtotalAround | frontend/src/pages/DocumentPreparationPage.js:76-80 | the subtotal is the part before, the item, and the part after |
| DocumentPreparation.RemoveSubtractsAmount | frontend/src/pages/DocumentPreparationPage.js:66-80 | removing an item takes exactly its amount off the subtotal |
| DocumentPreparation.TextEditKeepsSubtotal | frontend/src/pages/DocumentPreparationPage.js:70-80 | editing a description or unit never changes the subtotal |
| DocumentPreparation.DocumentPreparationPage.constructor | frontend/src/pages/DocumentPreparationPage.js:18-42 | one blank item, no tender, empty value, 2.0 percent, no result |
| DocumentPreparation.DocumentPreparationPage.AddBoqItem | frontend/src/pages/DocumentPreparationPage.js:62-64 | appends exactly one blank item, earlier items unchanged |
| DocumentPreparation.DocumentPreparationPage.RemoveBoqItem | frontend/src/pages/DocumentPreparationPage.js:66-68 | removes exactly the element at the index, order kept |
| DocumentPreparation.DocumentPreparationPage.ClickRemove | frontend/src/pages/DocumentPreparationPage.js:218-223 | the button does nothing on the last item, so the list never empties |
| DocumentPreparation.DocumentPreparationPage.UpdateBoqItem | frontend/src/pages/DocumentPreparationPage.js:70-74 | changes only the chosen field of the chosen item |
| DocumentPreparation.SetField | frontend/src/pages/DocumentPreparationPage.js:70-74 | the chosen field takes the typed text (quantity and rate as text); every other field is unchanged |
| DocumentPreparation.DocumentPreparationPage.GenerateBoq | frontend/src/pages/DocumentPreparationPage.js:82-99 | without a tender: an error notice and no request; otherwise posts tender and items and reports the outcome |
| DocumentPreparation.DocumentPreparationPage.GenerateCoverLetter | frontend/src/pages/DocumentPreparationPage.js:101-118 | same guard as the BOQ; otherwise posts the tender id with the company data |
| DocumentPreparation.DocumentPreparationPage.EnterTenderValue | frontend/src/pages/DocumentPreparationPage.js:40 | only the tender value changes |
| DocumentPreparation.DocumentPreparationPage.EnterEmdPercentage | frontend/src/pages/DocumentPreparationPage.js:410-416 | the percentage becomes `parseFloat` of the field (NaN for an empty or non-numeric field); nothing else changes |
| DocumentPreparation.DocumentPreparationPage.CalculateEmd | frontend/src/pages/DocumentPreparationPage.js:134-148 | an empty value is refused before any request; otherwise the value and the current percentage (possibly NaN) are posted, the result is set on success, an error shown on failure |
| TendersPage.FilteredTenders | frontend/src/pages/TendersPage.js:37-40 | shown iff the lowercased title or organisation contains the lowercased term, each match as often as it occurs; order kept; an empty term keeps all |
| TendersPage.CeilDiv | frontend/src/pages/TendersPage.js:59 | `Math.ceil(a / b)`: the least q with a ≤ b·q |
| TendersPage.DaysLeft | frontend/src/pages/TendersPage.js:58-61 | the ceiling of the remaining milliseconds over 86 400 000; `None` for an unparseable deadline |
| TendersPage.PositiveDaysIffAhead | frontend/src/pages/TendersPage.js:58-61 | days left is positive iff the deadline is in the future |
| TendersPage.DeadlineBand | frontend/src/pages/TendersPage.js:176 | red iff ≤ 5 days, amber iff 6..15, green otherwise |
| TendersPage.DeadlineCaption | frontend/src/pages/TendersPage.js:178 | "N days left" iff N > 0, else "Expired" |
| TendersPage.ExpiredIsRed | frontend/src/pages/TendersPage.js:176-178 | an expired tender is shown red |
| TendersPage.CategoryQuery | frontend/src/pages/TendersPage.js:25 | empty without a category, else exactly `?category=` and the category |
| NotificationsPage.MarkRead | frontend/src/pages/NotificationsPage.js:43-45 | same length; entries with the id become read, every other entry unchanged |
| NotificationsPage.MarkReadIdempotent | frontend/src/pages/NotificationsPage.js:43-45 | marking twice is marking once |
| NotificationsPage.MarkReadUnreadCount | frontend/src/pages/NotificationsPage.js:43-45 | the unread count drops by exactly the unread entries with that id |
| NotificationsPage.FilteredNotifications | frontend/src/pages/NotificationsPage.js:60-62 | "unread" keeps exactly the unread entries, each as often as it occurs, in order; any other filter keeps all |
| NotificationsPage.Unread | frontend/src/pages/NotificationsPage.js:60-62 | the unread entries with their multiplicities, in their original order |
| NotificationsPage.Counts | frontend/src/pages/NotificationsPage.js:77-83 | "All" is the length, "Unread" the number of unread entries |
| NotificationsPage.NotificationsPage.constructor | frontend/src/pages/NotificationsPage.js:15-17 | empty list, filter "all" |
| NotificationsPage.NotificationsPage.MarkAsRead | frontend/src/pages/NotificationsPage.js:37-49 | the list changes only after a successful PUT; on failure an error notice and nothing else |
| NotificationsPage.NotificationsPage.SetFilter | frontend/src/pages/NotificationsPage.js:75-81 | only the filter changes |
| ChatPage.AppendKeepsTranscript | frontend/src/pages/ChatPage.js:25-42 | alternating user/assistant turns stay alternating |
| ChatPage.ReplyFor | frontend/src/pages/ChatPage.js:38-45 | the reply is the server text on success, the fixed apology on failure |
| ChatPage.ChatPage.constructor | frontend/src/pages/ChatPage.js:12-19 | one assistant greeting, empty input, not loading |
| ChatPage.ChatPage.SetInput | frontend/src/pages/ChatPage.js:18 | only the input changes |
| ChatPage.ChatPage.BeginSend | frontend/src/pages/ChatPage.js:22-28 | blank input changes nothing; otherwise the user message is appended, input cleared, loading set |
| ChatPage.ChatPage.FinishSend | frontend/src/pages/ChatPage.js:38-48 | appends the reply or the apology (with an error notice) and clears loading |
| ChatPage.ChatPage.HandleSendMessage | frontend/src/pages/ChatPage.js:21-49 | a non-blank send grows the transcript by exactly the user message then the reply, and ends not loading |
| SupportPage.StatusBadge | frontend/src/pages/SupportPage.js:59-67 | the style of a known status, otherwise the "open" style |
| SupportPage.PriorityBadge | frontend/src/pages/SupportPage.js:69-76 | the style of a known priority, otherwise the "medium" style |
| SupportPage.StatusLabel | frontend/src/pages/SupportPage.js:172 | only the first `_` becomes a space |
| SupportPage.ResponseCount | frontend/src/pages/SupportPage.js:189 | the number of responses, 0 when absent |
| SupportPage.SupportPage.constructor | frontend/src/pages/SupportPage.js:17-23 | dialog closed, the empty form |
| SupportPage.SupportPage.EditForm | frontend/src/pages/SupportPage.js:18 | only the form changes |
| SupportPage.SupportPage.HandleCreateTicket | frontend/src/pages/SupportPage.js:43-57 | success closes the dialog, resets the form and re-fetches; failure keeps the form and shows an error |
| DocumentsPage.FilteredDocs | frontend/src/pages/DocumentsPage.js:35-37 | "All" keeps the list; another category keeps exactly the documents of that category, each as often as it occurs; order kept |
| TenderDetailPage.WinProbabilityLabel | frontend/src/pages/TenderDetailPage.js:405 | High iff ≥ 60, Medium iff 40..60, Low iff < 40 |
| TenderDetailPage.ThreatBadge | frontend/src/pages/TenderDetailPage.js:308 | danger iff "high", warning iff "medium", success otherwise |
| TenderDetailPage.KeyLabel | frontend/src/pages/TenderDetailPage.js:198 | only the first `_` becomes a space |
| TenderDetailPage.TenderDetailPage.constructor | frontend/src/pages/TenderDetailPage.js:15-20 | nothing loaded, loading, not analysing |
| TenderDetailPage.TenderDetailPage.FetchTenderDetails | frontend/src/pages/TenderDetailPage.js:26-49 | failure: an error notice and navigation to /tenders; a failed analysis fetch is ignored; loading cleared either way |
| TenderDetailPage.TenderDetailPage.BeginAnalysis | frontend/src/pages/TenderDetailPage.js:51-52 | sets `analyzing` and nothing else |
| TenderDetailPage.TenderDetailPage.EndAnalysis | frontend/src/pages/TenderDetailPage.js:58-96 | stores the result of its kind on success, a notice either way, `analyzing` cleared |
| TenderDetailPage.TenderDetailPage.RunAnalysis | frontend/src/pages/TenderDetailPage.js:51-97 | busy while the request is pending and not after, whatever the outcome |
| CompetitorModel.LoadModel | backend/ai_models/competitor_model.py:50-62 | file weights override defaults key by key; a competitors file replaces the defaults |
| CompetitorModel.Sigmoid | backend/ai_models/competitor_model.py:42-46 | always in [0,1]; positive without overflow; 0 or 1 by the sign on overflow |
| CompetitorModel.Clamp01 | backend/ai_models/competitor_model.py:79 | in [0,1], and the identity there |
| CompetitorModel.Urgency | backend/ai_models/competitor_model.py:71-81 | 0.5 unless both dates are present; in [0,1]; at most 29/30 because the day gap is at least 1 |
| CompetitorModel.UrgencyMonotone | backend/ai_models/competitor_model.py:77-79 | a later deadline is never more urgent |
| CompetitorModel.Featureize | backend/ai_models/competitor_model.py:64-90 | the five features in order; log ≥ 0; emd ratio 0 when value ≤ 0; risk and location from the tables with 0.4 / 0.15 for unknown keys |
| CompetitorModel.BaseScore | backend/ai_models/competitor_model.py:92-96 | the loop computes intercept plus Σ weight·feature, and the result is the sigmoid of it, in [0,1] |
| CompetitorModel.IdleFeaturesKeepIntercept | backend/ai_models/competitor_model.py:92-96 | the linear score ignores features without a weight (`weights.get(k, 0)`) or with value 0: only the intercept remains |
| CompetitorModel.ThreatOf | backend/ai_models/competitor_model.py:113-118 | high iff ≥ 0.66, medium iff 0.4..0.66, low otherwise |
| CompetitorModel.PricingFactor | backend/ai_models/competitor_model.py:109 | in [0.6, 1.0], and 1 − margin for margins in [0, 0.4] |
| CompetitorModel.Assess | backend/ai_models/competitor_model.py:103-126 | score clamped to [0,1], threat banded from it, defaults "Unknown"/0.5/0.15, rates ×100 |
| CompetitorModel.ScoreBelowBase | backend/ai_models/competitor_model.py:110-111 | for a base and win rate in [0,1] the clamp is inactive and no competitor scores above the base |
| CompetitorModel.RawScore | backend/ai_models/competitor_model.py:110 | for a non-negative base and a win rate in [0,1] the unclamped score lies between 0 and the base |
| CompetitorModel.Predict | backend/ai_models/competitor_model.py:98-127 | one assessment per configured competitor, in order, each from the same base score |
| CompetitorModel.BaseOf | backend/ai_models/competitor_model.py:99-100 | the base score of a tender is in [0,1] |
| CompetitorModel.CountThreat | backend/ai_models/competitor_model.py:131-132 | the count is the length of the comprehension list of assessments with that threat |
| CompetitorModel.AnalyzeMarket | backend/ai_models/competitor_model.py:130-139 | first match: ≥ 2 highs, then 1 high with ≥ 1 medium, then ≥ 2 mediums, else the low-threat text |
| GemScraper.CleanAmount | backend/gem_scraper.py:190 | the result is the strip of the text with every `₹` and `,` deleted: a slice between blank parts, without white space at either end, holding neither `₹` nor `,` |
| GemScraper.CleanAmountIdempotent | backend/gem_scraper.py:190 | cleaning twice is cleaning once |
| GemScraper.ConvertAmount | backend/gem_scraper.py:191-199 | "Cr" ×10 000 000 before "L" ×100 000 before a plain number; a parse failure gives 0.0, and non-negative conversions a non-negative amount |
| GemScraper.CroreBeforeLakh | backend/gem_scraper.py:192-195 | a string with both markers is read as crores |
| GemScraper.ParseCurrencyOfCleaned | backend/gem_scraper.py:186-199 | parsing an already cleaned string gives the same value |
| GemScraper.ParseCurrency | backend/gem_scraper.py:186-199 | a failed conversion gives 0 instead of an error; conversions that never go negative give a non-negative amount |
| GemScraper.CroreExample | backend/gem_scraper.py:186-199 | "₹2.5 Cr" is 25 000 000 |
| GemScraper.FirstCategory | backend/gem_scraper.py:227-231 | "General" iff no category is mentioned; otherwise the first mentioned, in declared order |
| GemScraper.DetectCategory | backend/gem_scraper.py:215-231 | the result is "General" or one of the declared categories |
| GemScraper.KitchenIsIt | backend/gem_scraper.py:220-228 | substring matching sends "Kitchen" to IT Services |
| GemScraper.StripAll | backend/gem_scraper.py:241 | each item trimmed, same length |
| GemScraper.ExtractEligibility | backend/gem_scraper.py:233-251 | the fixed three-item default when nothing is found, the trimmed items otherwise; never empty |
| GemScraper.ParseCard | backend/gem_scraper.py:145-184 | parses iff the seven required elements exist and a download link, if any, has an `href`; category detected from the title; location "India" and description "" by default; the document URL is that `href` |
| GemScraper.ScrapeLatestTenders | backend/gem_scraper.py:121-135 | the loop keeps, in order, the parsed cards among the first `limit` that match the category |
| GemScraper.ScrapeBounds | backend/gem_scraper.py:121-135 | at most `limit` results, each parsed from one of the first `limit` cards, each of the requested category |
| DocumentGenerator.CalculateEmd | backend/document_generator.py:337-348 | the EMD is value × percent / 100 |
| DocumentGenerator.CalculateSecurityDeposit | backend/document_generator.py:350-361 | the deposit is value × percent / 100 |
| DocumentGenerator.EmdExample | backend/document_generator.py:337-348 | 5 000 000 at the default 2.0 gives 100 000 |
| DocumentGenerator.DefaultDepositIsFiveEmds | backend/document_generator.py:337-361 | at the default rates the deposit is five times the EMD, and both lie between 0 and the tender value |
| DocumentGenerator.Amount | backend/document_generator.py:78 | no rate gives 0; no quantity gives the rate |
| DocumentGenerator.UnpricedLinesAddNothing | backend/document_generator.py:78-82 | a line without a rate adds nothing to the total |
| DocumentGenerator.TotalNonNegative | backend/document_generator.py:78-82 | lines with non-negative quantities and rates give a non-negative total |
| DocumentGenerator.TotalAppend | backend/document_generator.py:82 | the total of a concatenation is the sum of the totals |
| DocumentGenerator.TitleCellsExtent | backend/document_generator.py:45-56 | the title block occupies A1..A4 only |
| DocumentGenerator.WithHeadersShape | backend/document_generator.py:58-65 | the header stage writes the headers on row 6 and nothing else |
| DocumentGenerator.WithItemRowShape | backend/document_generator.py:71-79 | an item stage writes the six cells of its row and nothing else |
| DocumentGenerator.WithItemsKeepsOthers | backend/document_generator.py:68-83 | item rows touch only rows 7..6+n, columns A..F |
| DocumentGenerator.WithItemsRows | backend/document_generator.py:71-83 | item k is at row 6+k with serial k, its texts, values and amount |
| DocumentGenerator.WithTotalsCells | backend/document_generator.py:85-106 | total, GST (0.18 ×) and grand total (1.18 ×) at rows 7+n, 8+n, 9+n |
| DocumentGenerator.WithTotalsKeepsOthers | backend/document_generator.py:85-106 | the closing rows touch only their six cells |
| DocumentGenerator.HeadSheetLayout | backend/document_generator.py:45-65 | title cells, then exactly the six headers in order on row 6 |
| DocumentGenerator.FilledLayout | backend/document_generator.py:67-106 | every item row and the three closing rows hold the stated values |
| DocumentGenerator.FilledKeepsHead | backend/document_generator.py:67-106 | rows 1..6 are left as they were; new cells lie in rows 7..9+n, columns A..F |
| DocumentGenerator.Worksheet.constructor | backend/document_generator.py:29-31 | a new sheet has no cells |
| DocumentGenerator.Worksheet.Write | backend/document_generator.py:72 | one cell set, all others unchanged |
| DocumentGenerator.WriteItems | backend/document_generator.py:67-83 | the loop writes the item stage and returns the sum of the amounts |
| DocumentGenerator.WriteTotals | backend/document_generator.py:85-106 | writes exactly the closing stage |
| DocumentGenerator.GenerateBoq | backend/document_generator.py:18-112 | the new sheet is exactly the staged BOQ sheet; the path is the templates directory with `BOQ_<id or document>_<date>.xlsx` |
| ServerAuth.PublicUser | backend/server.py:51-60 | the returned user keeps id, email, role and creation time, and has no hash field |
| ServerAuth.FindByEmail | backend/server.py:306-307 | none iff no document has the email; otherwise the first document that has it |
| ServerAuth.FindById | backend/server.py:255 | none iff no document has the id; otherwise a stored document with it |
| ServerAuth.AccessClaims | backend/server.py:233-238 | the subject is the user id; the expiry is later than now, 30 days at the default 43 200 minutes |
| ServerAuth.NewUserDoc | backend/server.py:312-322 | fresh id, the hash stored, role "contractor" unless given, active and not KYC-verified |
| ServerAuth.Login | backend/server.py:331-343 | 401 "Invalid email or password" iff the email is unknown or the password does not verify; otherwise a bearer token for the stored user, returned without the hash |
| ServerAuth.CurrentUser | backend/server.py:240-260 | a user iff the token decodes, has a subject, and that id is stored; every failure is the same 401 |
| ServerAuth.UserStore.constructor | backend/server.py:26 | an empty collection |
| ServerAuth.UserStore.Register | backend/server.py:304-329 | 400 for a known email with nothing changed; otherwise exactly one document appended and a token for it; unique emails (and ids, for a fresh id) are preserved |
| ServerAuth.RegisterThenLogin | backend/server.py:304-343 | after registering, a login with the same password succeeds as the new user |
| ServerAuth.RegisteredEmailIsTaken | backend/server.py:307-309 | after a registration the email is found, so a second registration is refused |
| ServerAuth.LoginTokenIdentifiesUser | backend/server.py:233-260 | with unique ids, a login token is accepted by `get_current_user` and names the user who logged in |
| ServerRecords.TenderQuery | backend/server.py:367-369 | the filter names a category iff a non-empty one is given, and nothing else |
| ServerRecords.TenderQueryMeaning | backend/server.py:367-371 | a tender matches iff no category is given or it has that category |
| ServerRecords.SelectTenders | backend/server.py:366-371 | exactly the tenders of the requested category, each as often as stored, in order |
| ServerRecords.NoCategorySelectsAll | backend/server.py:367-371 | an absent or empty category selects every tender |
| ServerRecords.FindTender | backend/server.py:546-548 | none iff no tender has the id |
| ServerRecords.TotalCostAppend | backend/server.py:551 | the sum splits over concatenation |
| ServerRecords.IncompleteItemAddsNothing | backend/server.py:551 | an item missing quantity or unit price adds 0 |
| ServerRecords.TotalCostNonNegative | backend/server.py:551 | non-negative quantities and prices give a non-negative total |
| ServerRecords.GenerateBoq | backend/server.py:544-568 | 404 "Tender not found" iff the tender is unknown; else the caller's record with total, GST = 0.18 × total and grand total = 1.18 × total |
| ServerRecords.Summary | backend/server.py:459 | at most 500 characters, a prefix of the response |
| ServerRecords.SummaryIdempotent | backend/server.py:459 | truncating a summary changes nothing |
| ServerRecords.AnalysisSummary | backend/server.py:409-459 | 404 for an unknown tender; otherwise a prefix of at most 500 characters, the whole response when it fits |
| ServerRecords.UploadCheck | backend/server.py:616-617 | accepted iff the file name ends in ".pdf"; otherwise 400 "Only PDF files are supported" |
| ServerRecords.UpperCaseExtensionRefused | backend/server.py:616-617 | "TENDER.PDF" is refused, "tender.pdf" accepted |
| ServerRecords.ContactQuery | backend/server.py:572-574 | always the caller's id; a type iff a non-empty one is given |
| ServerRecords.ContactQueryMeaning | backend/server.py:572-576 | a contact matches iff it is the caller's and of the requested type |
| ServerRecords.GetContacts | backend/server.py:570-582 | the first 100 matching contacts in order, each the caller's and of the requested type |
| ServerRecords.ContactStore.constructor | backend/server.py:26 | an empty collection |
| ServerRecords.ContactStore.CreateContact | backend/server.py:584-590 | the stored contact is the body with `user_id` replaced by the caller's id, appended |
| ServerRecords.ContactInvisibleToOthers | backend/server.py:572-586 | a contact created by one user never changes another user's list |
| ServerRecords.OwnerSelectionGrows | backend/server.py:572-589 | the owner's selection grows by exactly the created contact |
| ServerRecords.ContactVisibleToOwner | backend/server.py:572-589 | the created contact appears in its owner's list while fewer than 100 precede it |
| Text.Lower | frontend/src/pages/TendersPage.js:38-39 | `toLowerCase` maps each character, same length |
| Text.TrimStartShape | backend/gem_scraper.py:190 | the left half of `strip()`: what is removed is a blank prefix, and what remains is a suffix starting with a non-space |
| Text.TrimEndShape | backend/gem_scraper.py:190 | the right half of `strip()`: what is removed is a blank suffix, and what remains is a prefix ending with a non-space |
| Text.TrimEmptyIffBlank | frontend/src/pages/ChatPage.js:23 | `!input.trim()` holds exactly for blank input |
| Text.TrimIdempotent | backend/gem_scraper.py:190 | trimming twice is trimming once |
| Text.TrimIsTrimOf | backend/gem_scraper.py:190 | `strip()` leaves the slice between a blank prefix and a blank suffix that neither starts nor ends with white space |
| Text.RemoveChar | backend/gem_scraper.py:190-195 | `replace(c, '')` leaves no `c`, and exactly the other characters of the input occur in the result |
| Text.RemoveCharIsFilter | backend/gem_scraper.py:190-195 | `replace(c, '')` is the filter that drops `c` |
| Text.RemoveCharKeepsOthers | backend/gem_scraper.py:190-195 | every other character is kept, as often as it occurs and in its order |
| Text.DeleteAllChangesIffContains | backend/gem_scraper.py:193 | `replace(pat, '')` leaves a text without `pat` unchanged and shortens one that contains it |
| Text.ReplaceFirstAt | frontend/src/pages/SupportPage.js:172 | `replace('_', ' ')` changes exactly the first underscore |
| Seqs.FilterMembership | frontend/src/pages/TendersPage.js:37-40 | `filter` keeps an element iff it satisfies the test |
| Seqs.FilterIsSubsequence | frontend/src/pages/DocumentsPage.js:37 | `filter` keeps the original order |
| Seqs.FilterMultiplicity | frontend/src/pages/TendersPage.js:37-40 | `filter` keeps every occurrence of a kept value and none of a dropped one |
| Seqs.PyTake | backend/gem_scraper.py:121 | `s[:n]` has min(n, length) elements and is a prefix |
| Seqs.FilterMapSound | backend/gem_scraper.py:128-135 | every kept result is the conversion of some input |

## Left out

- HTTP, routing, CORS, MongoDB access and the LLM client: collections are sequences, backend answers are inputs; the LLM's text is an input.
- bcrypt and JWT internals: the hash and `verify`, `encode` and `decode` are parameters; the salt is not modelled.
- `HTTPBearer`'s own 403 for a missing or non-bearer header: framework code, not part of this model.
- Paging in `get_tenders` (`skip`, `limit`) and the conversion of date strings when reading documents.
- Python `round(…, 2)` / `round(…, 3)`, `toLocaleString`, `Intl.NumberFormat` and `toFixed`: amounts are unrounded reals.
- Floating point: arithmetic is over reals; `math.exp` and `math.log10` keep only their range facts.
- Unicode: case mapping is ASCII only.
- Text.IsSpace: white space is the ASCII set that both `str.strip` and `String.prototype.trim` remove (space, tab, line feed, vertical tab, form feed, carriage return); Python also strips U+001C–U+001F, which JavaScript keeps, and both strip non-ASCII spaces such as U+00A0; neither difference is modelled.
- Pydantic validation (`EmailStr` normalisation, type coercion) and the JSON types of the competitor configuration files (parsed files are inputs).
- DocumentGenerator.Amount and ServerRecords.LineCost: item fields are numbers or absent; a JSON `null` or a string `quantity`, `rate` or `unit_price` makes the product at document_generator.py:78 or server.py:551 raise (or, for a string times an integer, repeat the string), which is not modelled.
- CompetitorModel.Urgency: dates given as strings make the subtraction raise, which the source catches; the model gives 0.5 for any non-datetime value and does not model `timedelta.days` for negative gaps beyond floor division.
- The scraper's Selenium and BeautifulSoup work, `login`, `get_tender_results`, `download_tender_document`, and `parse_date`; the `id` and `created_at` of a parsed card.
- Worksheet styling, column widths, merged cells, number formats and saving; the cover letter, company profile and technical bid generators.
- DocumentPreparation.DocumentPreparationPage.UpdateBoqItem: the item object is mutated in place inside a shallow copy; the model replaces the item by value, so aliasing with the previous array is not captured.
- JavaScript object lookups that hit prototype keys (`styles["constructor"]`) in the badge functions.
- Case-insensitive route matching and trailing slashes in the router.
- The SVG arc length of the win gauge, random mock data and statistics, and the pages that only fetch and render.
- Concurrency: interleaved async completions, late completions after unmount, cancellation and timeouts.
