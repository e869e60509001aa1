# CrexeWeb dashboard core in Dafny

CrexeWeb is a contact-centre dashboard. A FastAPI service reads lead data
(`dim_contactos`, `fact_contactos`) from PostgreSQL, or from an in-memory mock
generator. It serves KPIs, a four-stage funnel, trends, channel and programme
breakdowns, an agent leaderboard and a paged, filtered lead list. An assistant
answers questions and writes insights and predictions from a summary of that
data. A React client logs in and keeps tokens in `localStorage`. It guards the
dashboard routes behind a stored key and calls the service through one request
function.

This project models the logic of that system that can be stated, and proves
properties of the model.

**Service side**
- **Query builder and result shaping** (`backend/routes/dashboard.py`).
  - The WHERE clauses and their argument lists are built step by step. The model is a sequence of SQL tokens, so each `$k` placeholder is a number and not text to be scanned.
  - It covers the paging offset.
  - It covers the null-to-zero shaping of the KPI record and the funnel.
- **Assistant back end** (`backend/routes/ai.py`).
  - The data summary: exact-match counts, top-five rankings with a proved insertion sort, weekly buckets keyed by Monday, and the eight latest weeks.
  - The chat message list.
  - Fence stripping, with the fallbacks after a failed parse.
- **Mock generator** (`backend/mock_data.py`).
  - Every random draw is an input.
  - The model proves the consistency rules between the fields of a contact and the facts it generates.
  - It models the memoising accessors as a class with two cached fields.

**Client side**
- **Request layer** (`frontend/src/api.js`).
  - Headers and the status dispatch.
  - What a 401 does to `localStorage` and `window.location`.
  - Every path builder. Lemmas read each query string back into its pairs.
- **Route table and guard** (`App.jsx`).
- **Login form** (`LoginPage.jsx`) and the **frame** (`DashboardLayout.jsx`): navigation, title, logout and toggles.
- **Storage keys across files.** A separate module, SessionKeys, says which operation reads or writes which storage key.
- **Stateful components.** The assistant panel (`AIPanel.jsx`) and the leads table (`LeadsPage.jsx`) are classes whose methods follow React's closure semantics. A handler reads the state of the render it was created in. A later `setX` does not change what that handler already read.
- **Derived figures** of the overview, funnel and agents pages.
  - JavaScript numbers are exact reals, extended with `NaN` and the two infinities, so unguarded divisions are modelled as they behave.
  - `||` and `?.` follow JavaScript truthiness.

Modules:
- Wrappers, Text, JsValues and Browser are helpers. Browser is the `localStorage` map and the location.
- ApiClient, AppRoutes, LoginPage, DashboardLayout and SessionKeys model the session and request code.
- AiPanel and LeadsPage model the stateful components.
- DashboardRoutes, MockData and AiRoutes model the service.
- FunnelStages holds the stage arithmetic that two pages share.
- OverviewPage, FunnelPage and AgentsPage model the derived figures.

Behaviour of the code that the model keeps as written:
- The funnel page divides by the previous stage with no zero guard (FunnelPage.jsx:35). An empty service funnel therefore shows `NaN`; see FunnelPage.EmptyFunnelNaN.
- The chat request posts only `{message, history}`. Insights and predictions are plain GET requests.
- The login form writes `uniandes_token` and the guard reads it. The request layer reads and clears `crexe_token`. See Findings.
- The agents page reads `ventas` and `leads_gestionados`. The agents endpoint returns neither column, so every agent shows `0`; see AgentsPage.ServiceRowsShowZero.

## Model

| member | source | states |
|---|---|---|
| ApiClient.ApiUrl | frontend/src/api.js:1 | the configured URL when it is set and non-empty, else `http://localhost:8000` |
| ApiClient.AuthHeaders | frontend/src/api.js:3-10 | an `Authorization` header is present iff `crexe_token` holds a truthy value, and it is then `Bearer <token>`; no other header |
| ApiClient.RequestHeaders | frontend/src/api.js:15-19 | the keys are content type ∪ auth ∪ caller; caller headers win over auth, auth over the JSON content type |
| ApiClient.PlainHeaders | frontend/src/api.js:7-19 | without a token and caller headers, only `Content-Type: application/json` is sent |
| ApiClient.ErrorReason | frontend/src/api.js:27-28 | an unparseable body gives `Error de servidor`; a truthy `detail` is the reason; the reason is always truthy when defined |
| ApiClient.Dispatch | frontend/src/api.js:21-30 | 401 fails with `Unauthorized`; another non-2xx status fails with the body's reason; a 2xx status returns the parsed body unchanged |
| ApiClient.DispatchSuccess | frontend/src/api.js:21-30 | a request succeeds iff the status is 2xx and the body parses, and then yields that body |
| ApiClient.DispatchServerError | frontend/src/api.js:26-29 | no body, a body without a truthy `detail` or a non-object body all fail with `Error de servidor` |
| ApiClient.Settle | frontend/src/api.js:13-30 | a failed `fetch` rejects; otherwise the status dispatch decides |
| ApiClient.CallFor | frontend/src/api.js:13-20 | the fetch goes to API_URL + path, with the caller's method and body and the merged headers |
| ApiClient.StorageAfter | frontend/src/api.js:21-22 | a 401 removes exactly `crexe_token`; any other outcome leaves the storage alone |
| ApiClient.Request | frontend/src/api.js:12-31 | the call is built from the storage before the response; the outcome is the settled one; a 401 clears the token and moves to `/`, otherwise location is unchanged |
| ApiClient.BaseSuffix | frontend/src/api.js:43-50 | `<sep>base=<base>` exactly when base is truthy, else nothing |
| ApiClient.ChatInit | frontend/src/api.js:59-63 | a POST of `{message, history}` with `history` defaulting to `[]` and no extra headers |
| ApiClient.BasePathsPairs | frontend/src/api.js:43-50 | kpis, funnel, by-medio and agents carry `base` as their only query pair when it is truthy and no pair otherwise |
| ApiClient.TrendsPairs | frontend/src/api.js:45-46 | trends sends `period` (default `week`) first, then `base` when truthy |
| ApiClient.ByProgramaPairs | frontend/src/api.js:48-49 | by-programa sends `limit` (default 15) first, then `base` when truthy |
| ApiClient.Kept | frontend/src/api.js:53 | there are at most as many kept pairs as params |
| ApiClient.KeptAppend | frontend/src/api.js:53 | the kept pairs of two runs of params are the first run's followed by the second's, so the params' order is kept |
| ApiClient.KeptSingle | frontend/src/api.js:53 | one entry yields its key and text iff its value is truthy, else nothing |
| ApiClient.KeptIn | frontend/src/api.js:53 | a pair is in the query iff it comes from a param whose value is truthy (non-empty string, non-zero number) |
| ApiClient.KeptSource | frontend/src/api.js:53 | every pair in the query has a param entry with the same key and a truthy value written as that text |
| ApiClient.KeptFromIn | frontend/src/api.js:53 | every param entry with a truthy value puts its pair in the query |
| ApiClient.LeadsQuery | frontend/src/api.js:52-53 | the `forEach` loop sets exactly the truthy params, in order |
| ApiClient.Pieces | frontend/src/api.js:54 | one `key=value` piece per pair |
| ApiClient.SerializeParse | frontend/src/api.js:54 | serializing pairs free of separators and splitting the text again returns the same pairs |
| ApiClient.LeadsPairs | frontend/src/api.js:51-55 | the server reads back from the leads path exactly the truthy params |
| ApiClient.RoutePairs | frontend/src/api.js:51-55 | clean pairs serialized after a route without `?` and a `?` are read back by a server as exactly those pairs |
| AppRoutes.Guard | frontend/src/App.jsx:9-12 | the page renders iff `uniandes_token` holds a truthy value; otherwise it is a replacing redirect to `/` |
| AppRoutes.Segments | frontend/src/App.jsx:17-33 | paths are matched by their non-empty, lower-cased, slash-free segments |
| AppRoutes.Match | frontend/src/App.jsx:18-32 | a route matches iff its segments are the path's segments |
| AppRoutes.ResolveShows | frontend/src/App.jsx:17-33 | a page is shown iff the path is that page's path and, for a dashboard page, the guard admits |
| AppRoutes.ResolveRedirects | frontend/src/App.jsx:11-32 | every redirect goes to `/` with replace, and a redirect happens iff the path matches no route or is a dashboard page without the session |
| AppRoutes.LoginUnguarded | frontend/src/App.jsx:18 | `/` shows the login page whatever the storage |
| AppRoutes.PagePathResolves | frontend/src/App.jsx:19-30 | following each page's own link shows that page, behind the guard for the four dashboard pages |
| LoginPage.LoginToken | frontend/src/pages/LoginPage.jsx:19-20 | a token is read iff the login resolved with a body other than null or undefined, reading `res.token` |
| LoginPage.AfterLogin | frontend/src/pages/LoginPage.jsx:19-24 | success stores the token text under `uniandes_token`; failure leaves only the request layer's 401 effect |
| LoginPage.LocationAfterLogin | frontend/src/pages/LoginPage.jsx:21 | `/dashboard` on success, `/` after a 401, unchanged otherwise |
| LoginPage.LoginForm.constructor | frontend/src/pages/LoginPage.jsx:8-11 | empty fields, no error, not loading |
| LoginPage.LoginForm.SetUsername | frontend/src/pages/LoginPage.jsx:61 | the user field takes the input and nothing else changes |
| LoginPage.LoginForm.SetPassword | frontend/src/pages/LoginPage.jsx:72 | the password field takes the input and nothing else changes |
| LoginPage.LoginForm.BeginLogin | frontend/src/pages/LoginPage.jsx:16-19 | loading is set and the error is cleared before the POST of both fields |
| LoginPage.LoginForm.FinishLogin | frontend/src/pages/LoginPage.jsx:20-25 | on a token: store it under `uniandes_token` and go to `/dashboard`; on failure: `Credenciales inválidas` with storage and location untouched; loading ends either way |
| LoginPage.LoginForm.HandleLogin | frontend/src/pages/LoginPage.jsx:14-26 | the whole submission: the call sent, and the new storage, location, error and loading |
| DashboardLayout.Nav | frontend/src/pages/DashboardLayout.jsx:9-50 | four entries for the four dashboard pages; only the `/dashboard` entry matches exactly |
| DashboardLayout.NavHighlightsOwn | frontend/src/pages/DashboardLayout.jsx:46-51 | on each dashboard page exactly that page's entry is active |
| DashboardLayout.PageTitle | frontend/src/pages/DashboardLayout.jsx:22-28 | the title comes from the first of `funnel`, `leads`, `agents` that the path contains, else `Overview` |
| DashboardLayout.TitleOfPage | frontend/src/pages/DashboardLayout.jsx:22-28 | at each dashboard page's own path, the title names that page |
| DashboardLayout.AfterLogout | frontend/src/pages/DashboardLayout.jsx:31-32 | `crexe_token` and `crexe_user` are gone and every other key, `uniandes_token` included, keeps its value |
| DashboardLayout.HandleLogout | frontend/src/pages/DashboardLayout.jsx:30-34 | logout removes the two keys and moves to `/` |
| DashboardLayout.Layout.constructor | frontend/src/pages/DashboardLayout.jsx:17-18 | sidebar expanded, panel closed |
| DashboardLayout.Layout.Margin | frontend/src/pages/DashboardLayout.jsx:66 | the margin is 0 iff the sidebar is collapsed, 260 otherwise |
| DashboardLayout.Layout.ToggleSidebar | frontend/src/pages/DashboardLayout.jsx:69 | flips `collapsed` and leaves the panel alone |
| DashboardLayout.Layout.ToggleAi | frontend/src/pages/DashboardLayout.jsx:77 | flips `aiOpen` and leaves the sidebar alone |
| DashboardLayout.Layout.CloseAi | frontend/src/pages/DashboardLayout.jsx:91 | the panel's `onClose` closes it |
| SessionKeys.KeysDiffer | frontend/src/App.jsx:10 | the guard's key differs from the request layer's key and from the user key |
| SessionKeys.LoginAdmits | frontend/src/pages/LoginPage.jsx:20 | after a successful login the guard admits iff the token text is non-empty |
| SessionKeys.LoginSendsNoToken | frontend/src/pages/LoginPage.jsx:20 | a successful login does not change the request layer's headers |
| SessionKeys.NeverAuthorized | frontend/src/api.js:4 | starting without `crexe_token`, no run of logins, logouts and requests ever sends a bearer header |
| SessionKeys.LogoutKeepsSession | frontend/src/pages/DashboardLayout.jsx:30-34 | after logout the guard admits exactly when it did before |
| SessionKeys.UnauthorizedKeepsSession | frontend/src/api.js:21-23 | after a 401 the guard admits exactly when it did before |
| SessionKeys.SessionOnlyByLogin | frontend/src/App.jsx:10 | no run of logouts and requests changes what the guard sees |
| SessionKeys.LoggedOutStillInside | frontend/src/pages/DashboardLayout.jsx:30-34 | from an empty storage, logging in and then out still shows the overview, and the login sent no header |
| SessionKeys.FixedLogin | frontend/src/pages/LoginPage.jsx:19-20 | a failed login leaves only the request layer's 401 effect |
| SessionKeys.FixedGuardMatchesHeader | frontend/src/App.jsx:10 | with the corrected single key, the guard admits iff requests carry a bearer header |
| SessionKeys.FixedLoginSendsToken | frontend/src/pages/LoginPage.jsx:20 | with the corrected single key, a successful login admits and sends `Bearer <token>` |
| SessionKeys.FixedLogoutEndsSession | frontend/src/pages/DashboardLayout.jsx:30-34 | with the corrected single key, logout redirects and sends no header |
| SessionKeys.FixedUnauthorizedEndsSession | frontend/src/api.js:21-23 | with the corrected single key, a 401 ends the session |
| AiPanel.MsgJson | frontend/src/components/AIPanel.jsx:38 | a history entry is sent with its role and content |
| AiPanel.ChatHistory | frontend/src/components/AIPanel.jsx:38 | the history is the transcript without its first entry, entry by entry |
| AiPanel.ReplyOf | frontend/src/components/AIPanel.jsx:39-41 | the reply is `res.response` (undefined when the key is absent) whenever the field can be read, and the fixed error text when the call fails or the read throws; always from `assistant` |
| AiPanel.TranscriptGrows | frontend/src/components/AIPanel.jsx:32-41 | an accepted send keeps the transcript and adds exactly the question and then the reply |
| AiPanel.InsightsAfter | frontend/src/components/AIPanel.jsx:50-53 | `res.insights` on success, the single error card on failure |
| AiPanel.PredictionsAfter | frontend/src/components/AIPanel.jsx:62-65 | `res.predictions` on success, `[]` on failure |
| AiPanel.FailureCached | frontend/src/components/AIPanel.jsx:47-65 | after a failed load, both caches are truthy, so a later load is skipped |
| AiPanel.Regenerated | frontend/src/components/AIPanel.jsx:175-226 | a regenerate fetches iff the closure's cache was falsy; then it stores the answer, otherwise the cache is left null |
| AiPanel.RegenerateClears | frontend/src/components/AIPanel.jsx:175-226 | with cards shown, regenerate empties the cache and does not fetch |
| AiPanel.FixedRegenerated | frontend/src/components/AIPanel.jsx:175-226 | the corrected click behaves as a load from an empty cache |
| AiPanel.FixedRegenerateRefetches | frontend/src/components/AIPanel.jsx:175-226 | the corrected click always fetches, and its result depends only on the answer |
| AiPanel.Panel.constructor | frontend/src/components/AIPanel.jsx:14-23 | the chat tab with the greeting alone; empty input; no caches; nothing loading |
| AiPanel.Panel.SendDisabled | frontend/src/components/AIPanel.jsx:244-249 | the send button is disabled iff a send would be refused |
| AiPanel.Panel.SetInput | frontend/src/components/AIPanel.jsx:242 | the input takes the typed text; nothing else changes |
| AiPanel.Panel.BeginSend | frontend/src/components/AIPanel.jsx:30-38 | refused iff the input trimmed of JavaScript white space is empty or a send is in flight; otherwise appends the question, clears the input, sets `sending` and posts the pre-send history |
| AiPanel.Panel.Post | frontend/src/components/AIPanel.jsx:32-38 | the accepted branch: the question appended, the input cleared, `sending` set, and the chat call carrying the transcript before the question without its first entry |
| AiPanel.Panel.FinishSend | frontend/src/components/AIPanel.jsx:39-43 | the closure's list plus the reply; `sending` ends |
| AiPanel.Panel.SendMessage | frontend/src/components/AIPanel.jsx:30-44 | a whole send: the call made, and a transcript grown by question and reply or left unchanged when refused |
| AiPanel.Panel.LoadInsightsFrom | frontend/src/components/AIPanel.jsx:46-56 | fetches iff the closure's cache is falsy, then caches the answer or the error card |
| AiPanel.Panel.LoadPredictionsFrom | frontend/src/components/AIPanel.jsx:58-68 | fetches iff the closure's cache is falsy, then caches the answer or `[]` |
| AiPanel.Panel.SelectTab | frontend/src/components/AIPanel.jsx:70-113 | a change to the insights or predictions tab loads that cache iff it is falsy; the chat is untouched |
| AiPanel.Panel.RegenerateInsights | frontend/src/components/AIPanel.jsx:175 | the new insights and whether a fetch happened are those of Regenerated |
| AiPanel.Panel.RegeneratePredictions | frontend/src/components/AIPanel.jsx:226 | the new predictions and whether a fetch happened are those of Regenerated |
| LeadsPage.DataOf | frontend/src/pages/LeadsPage.jsx:24 | the table keeps the answer's `data`, `total` and `per_page` |
| LeadsPage.TotalPages | frontend/src/pages/LeadsPage.jsx:33 | the page count is a whole number other than 0, or infinite |
| LeadsPage.TotalPagesCount | frontend/src/pages/LeadsPage.jsx:33 | for a count and page size the service sends, the least number of pages (≥ 1) that holds every row |
| LeadsPage.InitialSinglePage | frontend/src/pages/LeadsPage.jsx:13-33 | before the first answer there is one page |
| LeadsPage.Params | frontend/src/pages/LeadsPage.jsx:23 | the params object has distinct keys |
| LeadsPage.RequestCarries | frontend/src/pages/LeadsPage.jsx:23 | the request carries the page iff it is not 0, and each filter iff it is not empty |
| LeadsPage.ClicksStayInRange | frontend/src/pages/LeadsPage.jsx:121 | an enabled next click never passes a finite page count |
| LeadsPage.Leads.constructor | frontend/src/pages/LeadsPage.jsx:13-18 | empty data with total 0 and 25 per page; empty filters; page 1; loading |
| LeadsPage.Leads.ClickPrev | frontend/src/pages/LeadsPage.jsx:117 | one page back unless `page ≤ 1`; nothing else changes |
| LeadsPage.Leads.ClickNext | frontend/src/pages/LeadsPage.jsx:121 | one page on unless `page ≥ totalPages`; nothing else changes |
| LeadsPage.Leads.SetSearch | frontend/src/pages/LeadsPage.jsx:50 | the search text changes, the page does not |
| LeadsPage.Leads.SetMedio | frontend/src/pages/LeadsPage.jsx:54 | a new medio filter, back to page 1 |
| LeadsPage.Leads.SetResultado | frontend/src/pages/LeadsPage.jsx:62 | a new resultado filter, back to page 1 |
| LeadsPage.Answered | frontend/src/pages/LeadsPage.jsx:22-27 | an answer replaces the data on success and leaves it on failure |
| LeadsPage.LastAnswerShown | frontend/src/pages/LeadsPage.jsx:22-27 | of two answers in flight, the later one decides the data when it succeeds |
| LeadsPage.Leads.Ask | frontend/src/pages/LeadsPage.jsx:21-23 | the spinner on and the path for the current page and filters; nothing else changes |
| LeadsPage.Leads.Receive | frontend/src/pages/LeadsPage.jsx:24-28 | the data is the answer's on success and unchanged on failure; the spinner off |
| LeadsPage.Leads.Load | frontend/src/pages/LeadsPage.jsx:20-29 | asks for the current page and filters; keeps the answer on success, the old data on failure; loading ends |
| LeadsPage.Leads.Effect | frontend/src/pages/LeadsPage.jsx:29-31 | loads iff page, search or a filter changed since the last run (or on the mount), and then records them |
| LeadsPage.Leads.HandleSearch | frontend/src/pages/LeadsPage.jsx:35-39 | page 1, and a load that still asks for the page shown before the submit |
| LeadsPage.Leads.SubmitSearch | frontend/src/pages/LeadsPage.jsx:29-39 | a submit from another page sends two requests, for the old page and for page 1; the answer that arrives last decides the rows, so page 1 can show the old page's rows |
| OverviewPage.SliceFive | frontend/src/pages/OverviewPage.jsx:53 | `period?.slice(5)`: strings and arrays drop five elements, null and undefined give undefined, other values throw |
| OverviewPage.ReshapeRow | frontend/src/pages/OverviewPage.jsx:53 | a reshaped row is an object |
| OverviewPage.ReshapeRowKeeps | frontend/src/pages/OverviewPage.jsx:53 | every field other than `period` reads as before |
| OverviewPage.DropsYear | frontend/src/pages/OverviewPage.jsx:53 | a `YYYY-…` period loses its year and the dash |
| OverviewPage.ReshapeRows | frontend/src/pages/OverviewPage.jsx:53 | every row is reshaped, in order, or the map throws at some row |
| OverviewPage.Reshape | frontend/src/pages/OverviewPage.jsx:53-61 | the trend list is reshaped iff it is an array whose rows all reshape |
| OverviewPage.TrendsAfter | frontend/src/pages/OverviewPage.jsx:59-63 | a refetch replaces the trends only when it succeeds and reshapes; otherwise the old trends stay |
| OverviewPage.Conversion | frontend/src/pages/OverviewPage.jsx:73 | `0%` iff `total_leads` is falsy, else matriculados / total_leads × 100 |
| OverviewPage.KpiCards | frontend/src/pages/OverviewPage.jsx:67-74 | six cards in fixed order: five counts, then the conversion |
| OverviewPage.ConversionOfCounts | frontend/src/pages/OverviewPage.jsx:73 | with counts, the card is `0%` iff there are no leads, else the enrolled share in percent, between 0 and 100 |
| OverviewPage.BarWidth | frontend/src/pages/OverviewPage.jsx:76-107 | a finite width is at least 8; the width is NaN iff the ratio is |
| OverviewPage.BarWidthRange | frontend/src/pages/OverviewPage.jsx:76-107 | for non-negative stages not above the first, every width is between 8 and 100 |
| OverviewPage.ArrowUnguarded | frontend/src/pages/OverviewPage.jsx:121 | after a zero stage the arrow shows NaN or infinity |
| OverviewPage.Donut | frontend/src/pages/OverviewPage.jsx:188-199 | at most the first six channels, each with the colour at its index |
| OverviewPage.DonutColorsDistinct | frontend/src/pages/OverviewPage.jsx:198-199 | no two donut slices share a colour |
| OverviewPage.Overview.constructor | frontend/src/pages/OverviewPage.jsx:40-46 | null KPIs, empty lists, period `week`, loading |
| OverviewPage.Overview.InitialPaths | frontend/src/pages/OverviewPage.jsx:50 | the mount asks for the five datasets |
| OverviewPage.Overview.LoadAll | frontend/src/pages/OverviewPage.jsx:48-57 | when any request fails nothing is set; when all succeed the KPIs and funnel are set, and the trends, channels and programmes too unless reshaping the trends throws; loading ends either way |
| OverviewPage.Overview.RefreshTrends | frontend/src/pages/OverviewPage.jsx:59-63 | refetches only the trends of the current period |
| OverviewPage.Overview.SelectPeriod | frontend/src/pages/OverviewPage.jsx:137-140 | a new period refetches its trends; the same period fetches nothing |
| FunnelStages.MaxValue | frontend/src/pages/FunnelPage.jsx:18 | the first stage's value when truthy, else 1; never falsy |
| FunnelStages.Ratio | frontend/src/pages/FunnelPage.jsx:34-35 | value / divisor × 100; a zero divisor never gives a finite figure |
| FunnelStages.StagesJson | backend/routes/dashboard.py:71-76 | the stages as the client receives them, with each `value` as a number |
| FunnelPage.StageWidth | frontend/src/pages/FunnelPage.jsx:34 | a finite width is at least 12; NaN iff the ratio is |
| FunnelPage.Label | frontend/src/pages/FunnelPage.jsx:35-52 | the first stage is the base total; each later stage shows its share of the previous one, unguarded |
| FunnelPage.Lost | frontend/src/pages/FunnelPage.jsx:36 | 0 for the first stage; previous minus current after it |
| FunnelPage.LostShownIff | frontend/src/pages/FunnelPage.jsx:36-78 | the loss is shown iff a later stage is below the previous one, and then it is the difference |
| FunnelPage.Summary | frontend/src/pages/FunnelPage.jsx:107-133 | present iff there are at least four stages; stages 1–3 each over stage 0 |
| FunnelPage.ServiceFunnelView | frontend/src/pages/FunnelPage.jsx:18-107 | for the funnel the service shapes, the summary shows, the base is the lead count or 1, and every width is finite and at least 12 |
| FunnelPage.EmptyFunnelNaN | frontend/src/pages/FunnelPage.jsx:35 | for the all-zero funnel every later stage's label is NaN |
| FunnelPage.Funnel.constructor | frontend/src/pages/FunnelPage.jsx:9-10 | an empty funnel, loading |
| FunnelPage.Funnel.Load | frontend/src/pages/FunnelPage.jsx:12-13 | keeps the answer on success, the empty funnel on failure; loading ends |
| AgentsPage.ConversionOf | frontend/src/pages/AgentsPage.jsx:208-209 | `0` iff `leads_gestionados > 0` fails, else ventas / leads_gestionados × 100 |
| AgentsPage.GreenFrom | frontend/src/pages/AgentsPage.jsx:225 | a non-negative figure is green iff its one-decimal text is above 2, i.e. from 2.05 on |
| AgentsPage.ConversionOfCounts | frontend/src/pages/AgentsPage.jsx:109 | with counts, `0` iff there are no handled leads, else the sales share, between 0 and 100 |
| AgentsPage.ServiceRowsShowZero | backend/routes/dashboard.py:174-180 | a row with only the agents endpoint's columns shows `0` and a yellow badge |
| AgentsPage.ColumnsLackLeads | backend/routes/dashboard.py:174-180 | the endpoint has no `leads_gestionados` column |
| Text.Take | frontend/src/pages/AgentsPage.jsx:108 | `slice(0, n)` (and Python's `[:n]`) is the prefix of length `min(n, len)` |
| AgentsPage.RankAt | frontend/src/pages/AgentsPage.jsx:217-218 | a medal for places 0–2, `i + 1` afterwards |
| AgentsPage.RanksDistinct | frontend/src/pages/AgentsPage.jsx:217-218 | ranks are distinct; the top cards are the first three rows, all medalled; cards ⊑ chart ⊑ list |
| AgentsPage.Agents.constructor | frontend/src/pages/AgentsPage.jsx:95-96 | no agents, loading |
| AgentsPage.Agents.Load | frontend/src/pages/AgentsPage.jsx:98-100 | keeps the answer on success, `[]` on failure; loading ends |
| DashboardRoutes.CondProps | backend/routes/dashboard.py:213-218 | a condition renders as its text and placeholder, with its one index |
| DashboardRoutes.RenderParams | backend/routes/dashboard.py:206-220 | a filter uses its own index once, and the search filter uses it three times |
| DashboardRoutes.SearchText | backend/routes/dashboard.py:207-208 | the search condition compares name, mail and phone with one placeholder |
| DashboardRoutes.CondText | backend/routes/dashboard.py:212-220 | the base, medio and resultado conditions as written |
| DashboardRoutes.RenderAllParams | backend/routes/dashboard.py:206-220 | the indices of a run of filters are each filter's own, in order |
| DashboardRoutes.ExpectedNumbered | backend/routes/dashboard.py:204-220 | the indices lie between k and k + n − 1, are non-decreasing, and every one is used |
| DashboardRoutes.WhereNumbered | backend/routes/dashboard.py:203-220 | the placeholders are exactly 1..len(args), in order |
| DashboardRoutes.AppendFilter | backend/routes/dashboard.py:212-220 | adding a filter appends its text with index len(args) + 1, and its argument |
| DashboardRoutes.BaseWhereText | backend/routes/dashboard.py:10-16 | the base filter text with and without a base |
| DashboardRoutes.BaseFilter | backend/routes/dashboard.py:10-16 | `("WHERE 1=1", [])` without a base, `("WHERE 1=1 AND base = $1", [base])` with one |
| DashboardRoutes.BuiltStep | backend/routes/dashboard.py:212-215 | each loop step keeps the text, arguments and counter in step |
| DashboardRoutes.SearchTermAccented | backend/routes/dashboard.py:207 | the pattern for `MARÍA` is `%maría%` |
| DashboardRoutes.AddSearch | backend/routes/dashboard.py:206-210 | with a search, appends the three-column LIKE on the current placeholder and the lower-cased `%term%`, keeping text, arguments and counter in step; without one nothing changes |
| DashboardRoutes.AddEquality | backend/routes/dashboard.py:212-220 | with a `medio` or `resultado` filter, appends its `= $k` condition and its value, keeping text, arguments and counter in step; without one nothing changes |
| DashboardRoutes.LeadsWhere | backend/routes/dashboard.py:203-220 | the text and arguments of the chosen filters, with `arg_idx == len(args) + 1` |
| DashboardRoutes.LeadsNumbered | backend/routes/dashboard.py:203-220 | the leads WHERE uses each placeholder from 1 to len(args) in order, the search term is `%lower(search)%`, and there is one argument per truthy filter |
| DashboardRoutes.Offset | backend/routes/dashboard.py:195-226 | the offset is a natural number, and 0 iff page 1 |
| DashboardRoutes.OffsetNext | backend/routes/dashboard.py:226 | the next page starts `per_page` rows later |
| DashboardRoutes.OffsetsOrdered | backend/routes/dashboard.py:226 | later pages start no earlier |
| DashboardRoutes.RowOnOnePage | backend/routes/dashboard.py:226-243 | every row lies on exactly one page |
| DashboardRoutes.PlanLeads | backend/routes/dashboard.py:193-243 | 422 iff page < 1 or per_page outside 1..100; otherwise the WHERE, arguments, limit and offset of the request |
| DashboardRoutes.LeadsEnvelope | backend/routes/dashboard.py:222-247 | echoes page and per_page; the total is the count, or 0 with no count row |
| DashboardRoutes.TruncFor | backend/routes/dashboard.py:87-92 | `day`→DAY, `week`→WEEK, anything else→MONTH |
| DashboardRoutes.SuffixNumbered | backend/routes/dashboard.py:101-123 | a fixed suffix after the base filter keeps the numbering |
| DashboardRoutes.TrendsQuery | backend/routes/dashboard.py:85-104 | the truncation unit, and the base filter followed by the dated-rows condition |
| DashboardRoutes.ByMedioQuery | backend/routes/dashboard.py:115-126 | the base filter followed by the medio-present condition |
| DashboardRoutes.ProgramaText | backend/routes/dashboard.py:137-141 | the programme WHERE with and without a base |
| DashboardRoutes.ByProgramaQuery | backend/routes/dashboard.py:137-152 | keeps `base = $1` when given, otherwise the WHERE is replaced; always ends with the non-empty-programme condition; the limit is passed through |
| DashboardRoutes.AgentsText | backend/routes/dashboard.py:164-171 | the `get_agents` clause is the user condition, followed by the description condition on `$1` exactly when a base is given |
| DashboardRoutes.AgentsQuery | backend/routes/dashboard.py:164-171 | the join and `$1` only with a base, and the user condition always |
| DashboardRoutes.ShapeFunnel | backend/routes/dashboard.py:68-76 | four stages in fixed order and colour, null counts as 0, all zero without a row |
| DashboardRoutes.ShapeKpis | backend/routes/dashboard.py:38-49 | all zero without a row, null counts as 0, `avg_toques` 0 when null |
| DashboardRoutes.FunnelMatchesKpis | backend/routes/dashboard.py:28-75 | for the same counts, the funnel's stages equal the KPI record's fields |
| MockData.CleanName | backend/mock_data.py:71 | same length; no spaces, accented vowels or capitals; an `@` only where the name had one |
| MockData.EmailShape | backend/mock_data.py:69-72 | an address is the cleaned name and the drawn number, then `@`, then the drawn domain, and holds exactly one `@` |
| MockData.RandomPhone | backend/mock_data.py:65-66 | `+52 ` followed by digits only |
| MockData.MakeContactConsistent | backend/mock_data.py:78-114 | each contact keeps the consistency rules and gets `idinterno = str(100000 + i)` |
| MockData.Contacts | backend/mock_data.py:75-115 | n contacts |
| MockData.GenerateContacts | backend/mock_data.py:75-115 | the loop builds the contacts one per index |
| MockData.ContactAt | backend/mock_data.py:78-114 | contact i keeps the rules and has id `100000 + i + 1` |
| MockData.ContactIds | backend/mock_data.py:78-90 | ids run from 100001 |
| MockData.ContactsConsistent | backend/mock_data.py:84-113 | `toques` is 0 iff not contacted, else 1..12; a last-touch date iff touched; enrolment only for effective contact; the subcategory number and label agree; `criterio_cliente` is 1 iff contacted |
| MockData.ContactIdsDistinct | backend/mock_data.py:90 | all ids are distinct |
| MockData.ContactFacts | backend/mock_data.py:121-143 | a contact yields exactly `int(toques)` facts |
| MockData.TouchFacts | backend/mock_data.py:122-143 | the inner loop yields exactly the contact's facts, one per touch in touch order |
| MockData.GenerateFacts | backend/mock_data.py:118-144 | the nested loops build the facts contact by contact |
| MockData.FactsCount | backend/mock_data.py:121-123 | the number of facts is the sum of the touch counts |
| MockData.ContactFactsShape | backend/mock_data.py:129-137 | fact t has key `mock_<id>_<t>`, the contact's id and database, a date 1 to 60 days after the insertion date, and a sale iff it is the last touch of an enrolled contact |
| MockData.MockStore.constructor | backend/mock_data.py:148-149 | nothing generated yet |
| MockData.MockStore.GetContacts | backend/mock_data.py:152-156 | generates 1200 contacts on the first call and returns the same list afterwards |
| MockData.FactsFit | backend/mock_data.py:159-163 | touch draws sized for the largest touch count cover the cached contacts, and the generated facts, one per touch, may be cached beside them |
| MockData.MockStore.GetFacts | backend/mock_data.py:159-163 | generates facts from the memoised contacts on the first call and returns the same list afterwards |
| AiRoutes.CountResult | backend/routes/ai.py:32-34 | a count never exceeds the number of contacts |
| AiRoutes.CountResultIsMultiplicity | backend/routes/ai.py:32-34 | each count is the number of contacts whose result equals that exact string |
| AiRoutes.CountsPartition | backend/routes/ai.py:31-34 | when every result is one of the three values, the three counts add up to the total |
| AiRoutes.SummaryKpis | backend/routes/ai.py:31-54 | `total_leads` is the number of contacts, and no count exceeds it |
| AiRoutes.Keys | backend/routes/ai.py:36-37 | the distinct values, each once |
| AiRoutes.Tallies | backend/routes/ai.py:36-37 | each distinct value with its number of occurrences |
| AiRoutes.InsertPermutes | backend/routes/ai.py:36-37 | inserting adds exactly one tally |
| AiRoutes.InsertSorted | backend/routes/ai.py:36-37 | inserting keeps the counts non-increasing |
| AiRoutes.SortDescOrdered | backend/routes/ai.py:36-37 | the sorted tallies have non-increasing counts |
| AiRoutes.SortDescPermutes | backend/routes/ai.py:36-37 | sorting is a permutation |
| AiRoutes.SortedTallies | backend/routes/ai.py:36-37 | the ranking holds every distinct value once with its count, by non-increasing count |
| AiRoutes.InsertWithCount | backend/routes/ai.py:36-37 | insertion into a sorted list puts an entry after every entry of its own count |
| AiRoutes.SortDescStable | backend/routes/ai.py:36-37 | the sort keeps entries of equal count in their order |
| AiRoutes.TiesInFirstOccurrence | backend/routes/ai.py:36-37 | values counted equally are listed in order of first occurrence |
| AiRoutes.MostCommonEntries | backend/routes/ai.py:36-37 | at most n entries, distinct keys, true counts, non-increasing |
| AiRoutes.MostCommonOmitted | backend/routes/ai.py:36-37 | a value left out occurs no more often than the last entry shown, and then the list is full |
| AiRoutes.ProgramasOf | backend/routes/ai.py:37 | only non-empty programmes are counted |
| AiRoutes.ProgramasCounted | backend/routes/ai.py:37 | a programme counts as often as it occurs, except the empty one, which never counts |
| AiRoutes.Weekday | backend/routes/ai.py:44 | a weekday is below 7 |
| AiRoutes.WeekStartProps | backend/routes/ai.py:44 | the week key is a Monday within the six days before the date; two dates share a key iff they fall in that week |
| AiRoutes.CountWeek | backend/routes/ai.py:41-45 | a bucket never exceeds the number of contacts |
| AiRoutes.WeeksCounted | backend/routes/ai.py:40-45 | a week has a bucket iff some dated contact falls in it |
| AiRoutes.BucketStep | backend/routes/ai.py:40-45 | one turn of the loop: an undated contact changes nothing, a dated one adds 1 to its week, and the buckets then match the counts of one more contact |
| AiRoutes.WeeklyBuckets | backend/routes/ai.py:40-45 | the loop gives exactly the weeks with dated contacts, each with its count |
| AiRoutes.MaxOf | backend/routes/ai.py:46 | the latest of a set of weeks |
| AiRoutes.LatestFirstOrder | backend/routes/ai.py:46 | the listing holds every week once, strictly latest first |
| AiRoutes.LatestFirstMembers | backend/routes/ai.py:46 | the listing has the set's size and exactly its elements |
| AiRoutes.LatestFirstDescending | backend/routes/ai.py:46 | the listing is strictly descending |
| AiRoutes.RecentWeeksEntries | backend/routes/ai.py:46 | at most 8 weeks, strictly descending, with their counts |
| AiRoutes.RecentWeeksAt | backend/routes/ai.py:46 | entry i is the i-th latest week with its own count |
| AiRoutes.RecentWeeksOmitted | backend/routes/ai.py:46 | a week left out is older than every week shown |
| AiRoutes.DataContext | backend/routes/ai.py:28-58 | the summary holds the KPIs, the top five channels and programmes, and the eight latest weekly buckets |
| AiRoutes.LastN | backend/routes/ai.py:82 | the last n entries, in order |
| AiRoutes.BuildChatMessages | backend/routes/ai.py:70-85 | the loop builds the system message, the window of the history and the user's message |
| AiRoutes.ChatMessagesShape | backend/routes/ai.py:70-85 | system first, at most six history entries (role defaulting to `user`, content to empty), the message last; at most 8 messages |
| AiRoutes.StripFences | backend/routes/ai.py:113-153 | the step-by-step reassignments compute the unfenced text, stripped of every character `str.isspace()` accepts |
| AiRoutes.SuffixFree | backend/routes/ai.py:115-116 | a suffix of a text without a fence has none |
| AiRoutes.UnfencedSkipsSpace | backend/routes/ai.py:113 | leading Unicode white space such as a no-break space does not reach the parser |
| AiRoutes.UnfencedProps | backend/routes/ai.py:113-118 | unfenced output is the text stripped of Python white space; otherwise the text between the first two fences without a leading `json`; the second piece always exists; the result holds no fence |
| AiRoutes.InsightsOf | backend/routes/ai.py:113-123 | the parsed value, or one `alert` card titled `Sin datos suficientes` whose description is the first 200 characters of the unfenced text (all of it when shorter) |
| AiRoutes.PredictionsOf | backend/routes/ai.py:148-158 | the parsed value, or `[]` iff the parse fails |

## Left out

- SQL execution and aggregation (COUNT FILTER, DATE_TRUNC, GROUP BY, LIMIT and ORDER BY): they run in PostgreSQL. The model stops at the query text and its arguments. The `database` module is not part of this model.
- `routes/auth.py` (`require_auth`, the login endpoint, `/me`) is not part of this model. The service's 401 is a response the client model receives.
- The Groq client and `json.loads`: foreign calls. The model's answer is a parameter, and parsing is a partial function passed in.
- `json.dumps` of the summary and the literal prompt texts: output formatting. The summary is a record.
- `random`: every draw is an input record. Its range is a precondition, the guarantee the library gives.
- `datetime.now` and `strptime` on the mock dates: dates are day numbers (1970-01-01 is a Thursday), and `today` is a parameter.
- `fetch`, `localStorage` and `window.location` as browser objects: one class with a storage map and a location field. The network is the settled response, passed in.
- ApiClient.SerializeParse, ApiClient.LeadsPairs, ApiClient.RoutePairs: percent-encoding by `URLSearchParams` is not modelled and values are kept as written, so these read-back lemmas require values without `&` and keys without `=`.
- react-router details beyond segment matching: trailing and repeated slashes, `NavLink` styling, and history `replace` beyond its flag.
- Promise interleaving: the two trend requests on mount, responses arriving out of order, and updates after unmount. Each handler is one sequential run with its outcome given.
- `toFixed`, `toLocaleString` and `round(float(...))` for `avg_toques`: formatting of doubles. Numbers are exact reals, with NaN and the infinities.
- AgentsPage.GreenFrom: the one-decimal text rounds halves up on exact reals. A double's `toFixed` can round a binary near-half the other way.
- JSX, framer-motion, recharts, icons and CSS: rendering only. The `loading` spinners are not modelled beyond the `loading` field itself.
- LoginPage.LoginForm.HandleLogin: it requires that the token's text form is one the model covers (strings, objects, booleans, null, undefined, and numbers that are whole and below 1e21 in magnitude). That is the `Storable` precondition. It excludes arrays, numbers with a fraction and numbers of magnitude 1e21 or more, whose `String()` the model does not compute.
- LoginPage.LoginForm.FinishLogin: the same `Storable` precondition.
- Page renders over a non-array answer or a `null` stage: `.map` and `.slice` throwing during render are not modelled. The render functions take a sequence of values, and a stage that is not an object reads as having no `value`.
- AsNumber: arithmetic on a value that is not a number yields NaN in the model. JavaScript would convert numeric strings, and the service sends numbers.
- LeadsPage.Leads.ClickPrev, LeadsPage.Leads.ClickNext, LeadsPage.Leads.SetSearch, LeadsPage.Leads.SetMedio, LeadsPage.Leads.SetResultado: each is the handler alone. The reload that follows every change of page, search or filter is `LeadsPage.Leads.Effect`, run after the handler; no method composes the two, except `SubmitSearch` for a submitted search.
- DashboardRoutes.AddSearch: `search.lower()` is modelled for the capitals of ASCII and Latin-1 (U+00C0 to U+00DE without U+00D7), which covers the Spanish accented capitals. Capitals of other scripts (Latin Extended, Greek, Cyrillic) are kept as written, and so is `İ`, which Python lowers to two characters.
- DashboardRoutes.LeadsNumbered: its search term `%lower(search)%` uses the same lower-casing as AddSearch, with the same limit.
- The query builders for kpis and funnel use `_get_base_filter` directly. They are covered by `BaseFilter` and are not modelled separately.
- `api.me` and `api.bases` are plain path constants. They carry no logic beyond the request layer.

## Findings

| source | as written | input that shows it | evidently intended | confidence | as-written member | corrected member |
|---|---|---|---|---|---|---|
| frontend/src/pages/LoginPage.jsx:20 | login stores the token under `uniandes_token`, but the request layer reads `crexe_token` (frontend/src/api.js:4), so no bearer header is ever sent | log in with valid credentials from an empty storage, then load any dashboard page | login writes the key the request layer reads | high, not executed | SessionKeys.NeverAuthorized | SessionKeys.FixedLoginSendsToken |
| frontend/src/pages/DashboardLayout.jsx:30-34 | logout removes `crexe_token` and `crexe_user` but leaves `uniandes_token`, so `/dashboard` still passes the guard | log in, log out, open `/dashboard` | logout ends the session the guard checks | high, not executed | SessionKeys.LoggedOutStillInside | SessionKeys.FixedLogoutEndsSession |
| frontend/src/api.js:21-23 | a 401 removes `crexe_token` and moves to `/`, but the guard's key remains, so the dashboard is still reachable | any request answered 401 while `uniandes_token` is set | a 401 ends the session the guard checks | high, not executed | SessionKeys.UnauthorizedKeepsSession | SessionKeys.FixedUnauthorizedEndsSession |
| frontend/src/components/AIPanel.jsx:175-226 | "Regenerar" sets the cache to null and calls the loader of the same render, whose guard still sees the old cache, so nothing is fetched and the cards vanish | open the insights tab, wait for the cards, click "Regenerar Insights" | the click fetches fresh insights | high, not executed | AiPanel.RegenerateClears | AiPanel.FixedRegenerateRefetches |
