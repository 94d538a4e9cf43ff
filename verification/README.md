# NutriFlow (IA Nutricionista) core in Dafny

This project models the core logic of the IA Nutricionista web application.

The backend is a FastAPI service over two TinyDB files:

- users, with their weight logs and chat transcripts;
- meals.

The model covers these backend parts:

- the user table (`salvar_usuario` as an upsert that merges dictionaries, `buscar_usuario` as a first-match lookup);
- the signup, login and profile-update handlers of both user routers (`user.py` and `chat.py`);
- the chat-history, weight-log and meal endpoints;
- the dashboard metrics pipeline: period parsing, a stable in-place sort by time, cutting to the period, the day-by-day history, and current weight, weight lost and BMI;
- the BMI and progress formulas of `app/utils/metrics.py`.

The web client's state holders are modelled as classes whose event methods update their fields:

- the dashboard page: BMI label, weight/height dialog, metrics URL, display name and screen choice;
- the progress card;
- the chat page: transcript, sends, image uploads and the persisted copies;
- the image-analysis page;
- the onboarding stepper;
- the light/dark theme provider.

Modelling conventions:

- Time is an integer count of microseconds; `Periods.Day` is one day.
- The clock reading ("now"), network outcomes and foreign functions are passed in as parameters. The foreign functions are password hashing and checking, JWT, `parseFloat` and the OpenAI call.
- A dictionary key that may be missing is an `Entry` (`Absent` or `Present`). TinyDB's `update` is therefore the key-by-key `Records.Merge`.

Module layout, one file each:

- Backend modules: `Wrappers`, `Seqs`, `Records`, `Db`, `Periods`, `LogOrder`, `Metrics`, `Dashboard`, `UserApi`, `ChatApi`, `ChatHistory`, `WeightLogs`, `Meals`.
- Client modules: `ClientTypes`, `JsText`, `ProgressCard`, `DashboardUi`, `ChatUi`, `ImageAnalysisUi`, `WelcomeUi`, `ThemeModeContext`.

Two source details the model follows:

- `get_dashboard_metrics` parses the period only when there is at least one log (`if period and logs`). With no logs, a malformed period therefore succeeds. `list_weight_logs` has no such guard and fails on it. Both behaviours are modelled as written: see `Dashboard.UnitAlonePeriod` and `WeightLogs.ListBadPeriod`.
- `chat.py`'s signup reads `height_cm` and `initial_weight` from its input, although its declared body type lacks them (see ChatApi.Signup under Left out). The model gives its `SignupBody` those fields, because the handler builds the document from them.

## Model

| member | source | states |
|---|---|---|
| Seqs.Filter | backend/app/endpoints/dashboard.py:67 | a list comprehension with a condition keeps only elements that satisfy it and is never longer than its input |
| Seqs.FilterConcat | backend/app/endpoints/meal.py:51 | filtering a concatenation is the concatenation of the filtered parts, so a table search after an insert sees the old matches, then the new one |
| Seqs.FilterComplete | backend/app/endpoints/dashboard.py:67 | every element that satisfies the condition is kept |
| Seqs.FilterSubMultiset | backend/app/endpoints/dashboard.py:67 | the filtered list is a sub-multiset of the input: nothing is invented or duplicated |
| Seqs.FilterCount | backend/app/endpoints/dashboard.py:67 | each element occurs in the filtered list as often as in the input when it satisfies the condition, and not at all otherwise |
| Seqs.FilterAll | backend/app/endpoints/dashboard.py:67 | when every element qualifies, the list is unchanged |
| Seqs.FilterNone | backend/app/endpoints/dashboard.py:67 | when no element qualifies, the result is empty |
| Records.Get | backend/app/endpoints/dashboard.py:88 | `dict.get` on an optional key: a missing key reads as `None`, a present key as its value |
| Records.GetList | backend/app/endpoints/dashboard.py:44 | `.get(key, []) or []`: a missing list key reads as the empty list |
| Records.Merge | backend/app/db.py:12 | TinyDB update: every key of the update is in the result, and every key it lacks keeps the stored value |
| Records.MergeIdempotent | backend/app/db.py:12 | applying the same update twice is the same as once |
| Records.MergeIncluded | backend/app/db.py:12 | an update whose keys already hold those values changes nothing |
| Db.Upsert | backend/app/db.py:10-14 | definition of `salvar_usuario`'s effect (update the matches, else insert); characterised only by the lemmas Db.UpsertSize to Db.UpsertKeepsUnique |
| Db.MergeMatching | backend/app/db.py:12 | definition of the update of every matching document; characterised only by Db.UpsertOthersUntouched and Db.UpsertIdempotent |
| Db.Lookup | backend/app/db.py:16-18 | `buscar_usuario`: None exactly when no document has that username, otherwise a stored document |
| Db.LookupFirst | backend/app/db.py:18 | the lookup returns the first document with that username |
| Db.UserTable.constructor | backend/app/db.py:7 | the table starts empty |
| Db.UserTable.Save | backend/app/db.py:10-14 | `salvar_usuario`: the table becomes the upsert of the document |
| Db.UserTable.Find | backend/app/db.py:16-18 | `buscar_usuario` reads the table without changing it and returns the first match |
| Db.UpsertSize | backend/app/db.py:10-14 | an unknown username inserts one document; a known one keeps the table's size |
| Db.UpsertOthersUntouched | backend/app/db.py:12 | documents of other usernames are unchanged, and matching ones become the merge with the update |
| Db.LookupAfterUpsert | backend/app/db.py:10-18 | after saving, the username is found and holds every key of the saved document; a first save finds exactly it |
| Db.LookupOtherAfterUpsert | backend/app/db.py:10-18 | saving one user does not change what a lookup of another username returns |
| Db.UpsertIdempotent | backend/app/db.py:10-14 | saving the same document twice equals saving it once |
| Db.UpsertKeepsUnique | backend/app/db.py:10-14 | if usernames are unique in the table, they stay unique after a save |
| Periods.ParseInt | backend/app/endpoints/dashboard.py:58 | `int(...)` of the quantity fails on the empty string |
| Periods.DigitChar | backend/app/endpoints/dashboard.py:58 | each digit value has a decimal digit character that reads back as that value |
| Periods.ShowNatDigits | backend/app/endpoints/dashboard.py:58 | the decimal numeral of n is a non-empty digit string whose value is n |
| Periods.ParseShowNat | backend/app/endpoints/dashboard.py:58 | `int` reads every decimal numeral back as its number |
| Periods.PeriodWindow | backend/app/endpoints/dashboard.py:57-66 | definition of the period parser; characterised only by Periods.DaysPeriod to Periods.WindowShape |
| Periods.DaysPeriod | backend/app/endpoints/dashboard.py:58-61 | period `<n>d` gives cutoff now minus n days |
| Periods.YearsPeriod | backend/app/endpoints/dashboard.py:62-63 | period `<n>y` gives cutoff now minus 365·n days |
| Periods.OtherUnitKeepsAll | backend/app/endpoints/dashboard.py:64-66 | any other unit letter gives no cutoff: every log is kept |
| Periods.UnitAloneIsError | backend/app/endpoints/dashboard.py:58 | a period of only one character has no quantity, so `int('')` raises |
| Periods.WindowShape | backend/app/endpoints/dashboard.py:58-66 | parsing succeeds exactly when the period is non-empty and all but its last character are an integer; a cutoff results exactly for `d` and `y` |
| LogOrder.InsertAt | backend/app/endpoints/dashboard.py:54 | one insertion step puts the log after every earlier-or-equal entry and before the later ones |
| LogOrder.InsertByTime | backend/app/endpoints/dashboard.py:54 | one insertion step of the stable sort; its contract gives only the length, and LogOrder.InsertAt, LogOrder.InsertSorted, LogOrder.InsertMultiset and LogOrder.InsertKeepsTies characterise it |
| LogOrder.SortByTime | backend/app/endpoints/dashboard.py:54 | definition of the stable sort by time; characterised by LogOrder.SortByTimeSorted, LogOrder.SortByTimePermutes and LogOrder.SortByTimeStable |
| LogOrder.KeepSince | backend/app/endpoints/dashboard.py:67 | definition of the cut at the cutoff; characterised only by LogOrder.KeepSinceExactly and LogOrder.KeepSinceSorted |
| LogOrder.InsertSorted | backend/app/endpoints/dashboard.py:54 | inserting into a sorted list keeps it sorted by time |
| LogOrder.InsertMultiset | backend/app/endpoints/dashboard.py:54 | inserting adds exactly the one log |
| LogOrder.InsertKeepsTies | backend/app/endpoints/dashboard.py:54 | inserting keeps equal-time logs in arrival order |
| LogOrder.SortByTimeSorted | backend/app/endpoints/dashboard.py:54 | the sort by `recorded_at` is in non-decreasing time order |
| LogOrder.SortByTimePermutes | backend/app/endpoints/dashboard.py:54 | the sort is a permutation of its input |
| LogOrder.SortByTimeStable | backend/app/endpoints/dashboard.py:54 | Python's sort is stable: logs with equal timestamps keep their relative order |
| LogOrder.KeepSinceExactly | backend/app/endpoints/dashboard.py:67 | the cut keeps exactly the logs at or after the cutoff, each as often as it is stored, and drops every earlier one |
| LogOrder.KeepSinceSorted | backend/app/endpoints/dashboard.py:67 | cutting a sorted list keeps it sorted |
| Metrics.ComputeBmi | backend/app/utils/metrics.py:5-13 | None exactly when the weight or the height is zero; otherwise the BMI times the square of the height in metres is the weight, and it is positive for positive inputs |
| Metrics.ComputeProgress | backend/app/utils/metrics.py:15-23 | the percentage always lies in [0, 100] and is 0 for a zero initial weight |
| Metrics.QuotientVersusOne | backend/app/utils/metrics.py:22 | for a positive initial weight, the quotient is at least 1 when the numerator reaches it, and at most 0 when the numerator is not positive |
| Metrics.ProgressEnds | backend/app/utils/metrics.py:22-23 | no progress when the weight did not go down; 100 when it reached zero or below |
| Metrics.ProgressUnclamped | backend/app/utils/metrics.py:22-23 | between zero and the initial weight, progress is the share lost times 100 |
| Metrics.ProgressMonotone | backend/app/utils/metrics.py:15-23 | a lower current weight never shows less progress |
| Dashboard.History | backend/app/endpoints/dashboard.py:70-73 | one history point per kept log, in the same order, carrying its date and weight |
| Dashboard.WindowedLogs | backend/app/endpoints/dashboard.py:47-67 | definition of the logs a dashboard uses; characterised only by Dashboard.WindowedLogsShape and the period lemmas after it |
| Dashboard.InlineBmi | backend/app/endpoints/dashboard.py:80-84 | definition of the BMI expression the handler writes inline; characterised only by Dashboard.InlineBmiAgrees |
| Dashboard.MetricsOf | backend/app/endpoints/dashboard.py:76-84 | definition of the three metrics from a history; characterised only by Dashboard.FormulaFacts and Dashboard.SortedMetrics |
| Dashboard.DashboardMetricsFor | backend/app/endpoints/dashboard.py:30-95 | definition of the whole answer; characterised only by Dashboard.GetDashboardMetrics and the lemmas from Dashboard.NoPeriodKeepsAll to Dashboard.MetricsFacts |
| Dashboard.InsertStep | backend/app/endpoints/dashboard.py:54 | one pass of the in-place sort extends the sorted prefix by one insertion and leaves the rest of the array alone |
| Dashboard.ShiftedIsInsert | backend/app/endpoints/dashboard.py:54 | the prefix left by shifting the later entries one place right and writing the new log into the gap is the stable insertion of that log by time |
| Dashboard.SortInPlace | backend/app/endpoints/dashboard.py:54 | `logs.sort` in place leaves the array equal to the stable sort by time of its old contents |
| Dashboard.GetDashboardMetrics | backend/app/endpoints/dashboard.py:30-95 | the handler answers exactly the dashboard specification, with the sort done in place on an array |
| Dashboard.DateMonotone | backend/app/endpoints/dashboard.py:71 | taking the calendar day keeps time order |
| Dashboard.WindowedLogsShape | backend/app/endpoints/dashboard.py:47-67 | the logs used are sorted, a sub-multiset of the stored logs, and no more than them |
| Dashboard.NoPeriodKeepsAll | backend/app/endpoints/dashboard.py:57 | with no period, an empty period or no logs, the answer succeeds and the history covers every stored log in time order |
| Dashboard.DaysPeriodFilters | backend/app/endpoints/dashboard.py:57-67 | period `<n>d` keeps the sorted logs from now minus n days on |
| Dashboard.YearsPeriodFilters | backend/app/endpoints/dashboard.py:57-67 | period `<n>y` keeps the sorted logs from now minus 365·n days on |
| Dashboard.OtherUnitFiltersNothing | backend/app/endpoints/dashboard.py:64-66 | an unknown unit keeps all sorted logs |
| Dashboard.UnitAlonePeriod | backend/app/endpoints/dashboard.py:57-58 | a one-character period is a server error when logs exist, and is ignored when there are none |
| Dashboard.HistoryFacts | backend/app/endpoints/dashboard.py:70-73 | the history is in date order, no longer than the stored logs, and each point comes from a stored log |
| Dashboard.MetricsFacts | backend/app/endpoints/dashboard.py:76-84 | current weight exists exactly when logs remain and is the latest log's weight; weight lost and BMI are present exactly under the source's truthiness tests, and BMI agrees with `compute_bmi` |
| Dashboard.LastIsLatest | backend/app/endpoints/dashboard.py:78 | in a time-sorted list the last log is no earlier than any other, so `history[-1]` is the newest reading |
| Dashboard.FormulaFacts | backend/app/endpoints/dashboard.py:76-84 | for any history: no current weight exactly when the history is empty; a weight lost exactly when the initial and current weights are both non-zero, equal to initial minus current; the BMI is `compute_bmi` of the current weight and the height |
| Dashboard.InlineBmiAgrees | backend/app/endpoints/dashboard.py:80-84 | the BMI expression the handler writes inline gives the same answer as `compute_bmi` of app/utils/metrics.py |
| Dashboard.SortedMetrics | backend/app/endpoints/dashboard.py:70-84 | over time-sorted logs, the current weight exists exactly when there are logs and is the weight of a log no earlier than any other, and the formulas hold |
| UserApi.Signup | backend/app/endpoints/user.py:41-61 | a password under 6 characters is a 422 and a known username a 400, both with the table unchanged; otherwise exactly the new document is appended |
| UserApi.Login | backend/app/endpoints/user.py:64-77 | 401 exactly when the user is unknown or the password does not verify; otherwise the token names the username and the stored `nome` |
| UserApi.SignupThenLogin | backend/app/endpoints/user.py:41-77 | after a signup, logging in with the same password succeeds when the hash verifies |
| UserApi.NewUser | backend/app/endpoints/user.py:48-59 | definition of the new document; characterised only by UserApi.Signup and UserApi.SignupThenLogin |
| UserApi.ExcludeNone | backend/app/endpoints/user.py:88 | definition of `exclude_none`; characterised only by UserApi.ExcludeNoneExact |
| UserApi.ApplyField | backend/app/endpoints/user.py:89 | definition of writing one field; characterised only by UserApi.UpdateOverwritesOnlyGiven |
| UserApi.ApplyAll | backend/app/endpoints/user.py:89 | definition of `update` with a field list; characterised only by UserApi.UpdateOverwritesOnlyGiven and UserApi.ApplyAllConcat |
| UserApi.ExcludeNoneExact | backend/app/endpoints/user.py:88 | `exclude_none` keeps exactly the given fields, with their values |
| UserApi.UpdateOverwritesOnlyGiven | backend/app/endpoints/user.py:88-89 | the profile update overwrites the given fields and leaves every other key as it was |
| UserApi.ApplyAllConcat | backend/app/endpoints/user.py:89 | applying two batches of field updates in turn equals applying their concatenation |
| UserApi.UpdateProfile | backend/app/endpoints/user.py:80-91 | answers the non-None fields and stores the caller's document with them merged in |
| ChatApi.NewUser | backend/app/endpoints/chat.py:28-43 | the stored document copies the username, `nome`, `objetivo`, height and initial weight, has no id, the hashed password, no chat history, an empty meal list, and one weight log at signup time exactly when an initial weight is given |
| ChatApi.ApplyUpdate | backend/app/endpoints/chat.py:72-86 | definition of the profile edit; characterised only by ChatApi.UpdateFacts |
| ChatApi.Signup | backend/app/endpoints/chat.py:22-46 | a known username is a 400 with the table unchanged; otherwise the new document is appended |
| ChatApi.Login | backend/app/endpoints/chat.py:49-55 | 401 "Usuário ou senha inválidos" exactly when the user is unknown or the password fails; the token carries only the subject |
| ChatApi.UpdateFacts | backend/app/endpoints/chat.py:72-86 | each given field is overwritten with its value and every other field keeps its stored value; a current weight appends exactly one log stamped now and keeps the earlier logs |
| ChatApi.UpdateProfile | backend/app/endpoints/chat.py:64-90 | a caller with no stored document gets a 500 and nothing changes; otherwise the reloaded document is edited, stored and returned |
| ChatHistory.ValidateMessage | backend/app/endpoints/chat_history.py:13-18 | a body lacking role, text or created_at is a 422; otherwise the message, with type and imageUrl optional |
| ChatHistory.GetChatHistory | backend/app/endpoints/chat_history.py:21-26 | a stored transcript is returned as it is; a user with no transcript gets the empty list |
| ChatHistory.WithMessage | backend/app/endpoints/chat_history.py:36-38 | definition of appending to the transcript; characterised only by ChatHistory.SaveThenGet |
| ChatHistory.SaveThenGet | backend/app/endpoints/chat_history.py:29-40 | saving appends exactly the message to the transcript, touches nothing else, and a later read finds it last |
| ChatHistory.SaveChatMessage | backend/app/endpoints/chat_history.py:29-40 | an invalid body is a 422 with the table unchanged; otherwise the caller's document with the message appended is stored and the message returned |
| WeightLogs.ValidateLog | backend/app/endpoints/weight_logs.py:14-18 | accepted exactly when a weight is given and is greater than 0; otherwise a 422 |
| WeightLogs.NewLog | backend/app/endpoints/weight_logs.py:32-33 | the log has the given weight and time, or now when no time is given |
| WeightLogs.WithLog | backend/app/endpoints/weight_logs.py:35-37 | definition of appending a log; characterised only by WeightLogs.AppendFacts |
| WeightLogs.AppendFacts | backend/app/endpoints/weight_logs.py:35-37 | appending adds exactly the new log at the end and changes no other key |
| WeightLogs.CreateWeightLog | backend/app/endpoints/weight_logs.py:24-41 | an invalid body is a 422 with the table unchanged; otherwise the log is appended, the document stored and the log returned |
| WeightLogs.ListWeightLogs | backend/app/endpoints/weight_logs.py:44-78 | definition of the listing; characterised only by WeightLogs.ListWithoutPeriod, WeightLogs.ListWithPeriod and WeightLogs.ListBadPeriod |
| WeightLogs.ListWithoutPeriod | backend/app/endpoints/weight_logs.py:51-61 | without a period, the listing is every stored log, sorted by time |
| WeightLogs.ListWithPeriod | backend/app/endpoints/weight_logs.py:63-73 | with a parsable period, the listing is sorted and holds exactly the logs at or after the cutoff, each as often as it is stored |
| WeightLogs.ListBadPeriod | backend/app/endpoints/weight_logs.py:63-64 | a one-character period is a server error even when there are no logs |
| WeightLogs.CreateThenList | backend/app/endpoints/weight_logs.py:24-78 | after creating a log, the unfiltered listing holds the old logs plus the new one |
| Meals.MealsOf | backend/app/endpoints/meal.py:48-52 | the history search returns only the caller's meals, never more rows than the table |
| Meals.MealTable.constructor | backend/app/endpoints/meal.py:14 | the meal table starts empty |
| Meals.MealTable.SaveMeal | backend/app/endpoints/meal.py:37-46 | a body without an analysis is a 422; otherwise exactly one row with the caller, the analysis, the image name and now is appended |
| Meals.MealTable.History | backend/app/endpoints/meal.py:48-52 | returns the caller's rows in table order, without changing the table |
| Meals.HistoryExactly | backend/app/endpoints/meal.py:51 | a meal is in the history exactly when it is in the table and belongs to the caller, and as often as it is in the table |
| Meals.SaveEffectOnHistory | backend/app/endpoints/meal.py:37-52 | saving a meal adds it at the end of its owner's history and leaves every other user's history unchanged |
| ClientTypes.AnalysisText | frontend/src/pages/ImageAnalysisPage.tsx:85-87 | a string analysis is kept as it is; any other value becomes its JSON text |
| ProgressCard.Progress | backend/frontend/src/components/ProgressCard.tsx:25-32 | missing weights read as 0; progress lies in [0, 100] and is 0 when the initial weight is 0 |
| ProgressCard.ProgressAgreesWithBackend | backend/frontend/src/components/ProgressCard.tsx:30-32 | the card shows exactly what the backend `compute_progress` computes |
| ProgressCard.ProgressCases | backend/frontend/src/components/ProgressCard.tsx:31 | for a positive initial weight, a gain shows 0, and a loss within range shows the share lost times 100 |
| ProgressCard.Card | backend/frontend/src/components/ProgressCard.tsx:25-28 | a present weight lost or BMI is shown as given and a missing one as 0; the progress is that of the two weights |
| DashboardUi.Classification | backend/frontend/src/pages/DashboardPage.tsx:140-148 | the label is always one of the four bands |
| DashboardUi.Rank | backend/frontend/src/pages/DashboardPage.tsx:141-148 | band names are ordered from the lowest band to the highest |
| DashboardUi.ClassificationBands | backend/frontend/src/pages/DashboardPage.tsx:141-148 | each label is given exactly for its BMI band: below 18.5, [18.5, 25), [25, 30), 30 and above |
| DashboardUi.MissingBmiLowest | backend/frontend/src/pages/DashboardPage.tsx:140 | a missing BMI counts as 0 and gets the lowest band |
| DashboardUi.ClassificationMonotone | backend/frontend/src/pages/DashboardPage.tsx:141-148 | a higher BMI never gets an earlier band |
| DashboardUi.ReplaceFirstComma | backend/frontend/src/pages/DashboardPage.tsx:94-95 | the comma replacement keeps the input's length |
| DashboardUi.ReplaceFirstCommaAt | backend/frontend/src/pages/DashboardPage.tsx:94-95 | only the first comma becomes a point; later commas stay |
| DashboardUi.ReplaceNoComma | backend/frontend/src/pages/DashboardPage.tsx:94-95 | input without a comma is unchanged |
| DashboardUi.MetricsUrl | backend/frontend/src/pages/DashboardPage.tsx:71 | the URL has a `?period=` query exactly when the period is non-empty, and then carries the period |
| DashboardUi.PeriodChangeRequests | backend/frontend/src/pages/DashboardPage.tsx:67-84 | a period change asks for nothing exactly when the period is the active one, and otherwise asks once for the new period's metrics URL |
| DashboardUi.ConfirmRequests | backend/frontend/src/pages/DashboardPage.tsx:96-113 | no request for an unusable weight or height; otherwise the height PATCH first, the weight POST only after the PATCH succeeds, and the metrics re-fetch only after both succeed |
| DashboardUi.NameOf | backend/frontend/src/pages/DashboardPage.tsx:61 | the display name is `nome`, else `username`, else "Usuário", and is never empty |
| DashboardUi.ScreenOf | backend/frontend/src/pages/DashboardPage.tsx:122-151 | the spinner exactly while no metrics are loaded; the empty state exactly when the history is empty and no action is loading |
| DashboardUi.DashboardPage.CurrentScreen | backend/frontend/src/pages/DashboardPage.tsx:122-151 | the screen the page renders from its state; characterised only by DashboardUi.ScreenOf |
| DashboardUi.DashboardPage.constructor | backend/frontend/src/pages/DashboardPage.tsx:44-50 | initial state: no metrics, period 30d, name "Usuário", dialog closed, inputs empty, not loading |
| DashboardUi.DashboardPage.LoadUserName | backend/frontend/src/pages/DashboardPage.tsx:56-64 | a decodable token sets the display name; otherwise it is unchanged |
| DashboardUi.DashboardPage.FetchMetrics | backend/frontend/src/pages/DashboardPage.tsx:67-81 | sends one request for the period's URL, replaces the metrics only on success, and ends not loading |
| DashboardUi.DashboardPage.ChangePeriod | backend/frontend/src/pages/DashboardPage.tsx:67-84 | re-selecting the active period sends nothing and changes nothing; a new period is stored and its metrics are fetched once |
| DashboardUi.DashboardPage.OpenDialog | backend/frontend/src/pages/DashboardPage.tsx:87-91 | opening the dialog clears both inputs |
| DashboardUi.DashboardPage.CloseDialog | backend/frontend/src/pages/DashboardPage.tsx:92 | closing the dialog changes nothing else |
| DashboardUi.DashboardPage.EditInputs | backend/frontend/src/pages/DashboardPage.tsx:192 | typing sets the input texts |
| DashboardUi.DashboardPage.Confirm | backend/frontend/src/pages/DashboardPage.tsx:93-119 | sends exactly the requests above; closes the dialog and takes the re-fetched metrics only if both writes succeed; unusable input changes nothing |
| JsText.TrimStart | backend/frontend/src/pages/ChatPage.tsx:117 | leading white space is dropped: the rest is a suffix that starts with a non-space |
| JsText.TrimEnd | backend/frontend/src/pages/ChatPage.tsx:117 | trailing white space is dropped: the rest is a prefix that ends with a non-space |
| JsText.SkipSpaces | backend/frontend/src/pages/ChatPage.tsx:117 | scanning forward stops at the first character that is not white space, and everything passed over is white space |
| JsText.SkipSpacesBack | backend/frontend/src/pages/ChatPage.tsx:117 | scanning backward stops just after the last character that is not white space, and everything passed over is white space |
| JsText.Trim | backend/frontend/src/pages/ChatPage.tsx:117 | `trim()` leaves neither end as white space |
| JsText.TrimBlank | backend/frontend/src/pages/ChatPage.tsx:117-118 | the trimmed text is empty exactly when the input is all white space |
| JsText.TrimInside | backend/frontend/src/pages/ChatPage.tsx:117 | the input is white space, then the trimmed text, then white space |
| JsText.TrimIdempotent | backend/frontend/src/pages/ChatPage.tsx:117 | trimming twice is trimming once |
| ChatUi.Stripped | backend/frontend/src/pages/ChatPage.tsx:107-113 | the persisted copy has no image URL and otherwise equals the message |
| ChatUi.Greeting | backend/frontend/src/pages/ChatPage.tsx:89-95 | definition of the greeting shown when loading fails; characterised only by ChatUi.ChatPage.LoadHistory |
| ChatUi.SendAdds | backend/frontend/src/pages/ChatPage.tsx:115-145 | a blank input adds nothing; otherwise a user message with the trimmed text and exactly one bot message, which is the reply or the connection error text |
| ChatUi.SendBlank | backend/frontend/src/pages/ChatPage.tsx:117-118 | a send adds nothing exactly when the input is all white space |
| ChatUi.ImageAdds | backend/frontend/src/pages/ChatPage.tsx:152-185 | an upload adds the user's image message, then one bot message with the analysis text only on success |
| ChatUi.StripAll | backend/frontend/src/pages/ChatPage.tsx:121-145 | every added message is persisted, in order, without its image URL |
| ChatUi.StrippedAppend | backend/frontend/src/pages/ChatPage.tsx:121-145 | appending stripped copies keeps every persisted message free of an image URL |
| ChatUi.ChatPage.constructor | backend/frontend/src/pages/ChatPage.tsx:72-75 | initial state: empty input and transcript, notice closed, nothing loading |
| ChatUi.ChatPage.LoadHistory | backend/frontend/src/pages/ChatPage.tsx:81-100 | the transcript is the stored one, or exactly one greeting when loading fails |
| ChatUi.ChatPage.SetMessage | backend/frontend/src/pages/ChatPage.tsx:225 | typing or picking a suggestion sets the input |
| ChatUi.ChatPage.SendDisabled | backend/frontend/src/pages/ChatPage.tsx:326 | the send button is disabled exactly while an image is being analysed or the input is all white space |
| ChatUi.ChatPage.Send | backend/frontend/src/pages/ChatPage.tsx:115-150 | the transcript grows by exactly the send's messages and each is persisted stripped; after a non-blank send the input is cleared and loading is off; a blank send changes nothing |
| ChatUi.ChatPage.Record | backend/frontend/src/pages/ChatPage.tsx:120-148 | a non-blank send shows and persists exactly the added messages, clears the input and ends with the loading overlay off, touching nothing else |
| ChatUi.ChatPage.HandleFile | backend/frontend/src/pages/ChatPage.tsx:152-190 | the transcript grows by exactly the upload's messages, each persisted stripped; the notice reports the outcome and the upload indicator is off |
| ChatUi.ChatPage.CopyText | backend/frontend/src/pages/ChatPage.tsx:192-195 | copying shows the "Copiado!" notice |
| ChatUi.ChatPage.CloseSnackbar | backend/frontend/src/pages/ChatPage.tsx:384 | closing the notice keeps its text |
| ImageAnalysisUi.FirstFile | frontend/src/pages/ImageAnalysisPage.tsx:48-49 | a selection yields its first file, and none when empty |
| ImageAnalysisUi.HistoryAfter | frontend/src/pages/ImageAnalysisPage.tsx:88-92 | a success puts one entry in front and keeps the older ones in order behind it; a failure keeps the history |
| ImageAnalysisUi.ImageAnalysisPage.constructor | frontend/src/pages/ImageAnalysisPage.tsx:29-33 | starts with no file, empty result and history, and submit disabled |
| ImageAnalysisUi.ImageAnalysisPage.SubmitDisabled | frontend/src/pages/ImageAnalysisPage.tsx:144 | submit is disabled exactly while no file is chosen; characterised by the constructor and ImageAnalysisUi.ImageAnalysisPage.Select |
| ImageAnalysisUi.ImageAnalysisPage.Select | frontend/src/pages/ImageAnalysisPage.tsx:47-61 | a non-empty selection picks its first file and clears the result; an empty one changes nothing |
| ImageAnalysisUi.ImageAnalysisPage.HandleFileChange | frontend/src/pages/ImageAnalysisPage.tsx:47-52 | picking files behaves as a selection; no file list changes nothing |
| ImageAnalysisUi.ImageAnalysisPage.HandleDrop | frontend/src/pages/ImageAnalysisPage.tsx:55-61 | dropping files behaves as a selection |
| ImageAnalysisUi.ImageAnalysisPage.HandleSubmit | frontend/src/pages/ImageAnalysisPage.tsx:65-96 | no file: nothing happens; success: result and history updated, success notice; failure: only the error notice; loading ends off |
| ImageAnalysisUi.ImageAnalysisPage.CloseSnackbar | frontend/src/pages/ImageAnalysisPage.tsx:214 | closing the notice changes nothing else |
| WelcomeUi.NextLabel | frontend/src/pages/WelcomePage.tsx:58 | the button reads "Começar" exactly at the last step, "Próximo" otherwise |
| WelcomeUi.WelcomePage.constructor | frontend/src/pages/WelcomePage.tsx:23 | the stepper starts at step 0, a valid index |
| WelcomeUi.WelcomePage.HandleNext | frontend/src/pages/WelcomePage.tsx:25-28 | at the last step it navigates to `/` and keeps the step; before it, it advances by one; the step stays a valid index |
| WelcomeUi.WelcomePage.HandleBack | frontend/src/pages/WelcomePage.tsx:29 | the handler decrements the step without a guard |
| WelcomeUi.WelcomePage.BackDisabled | frontend/src/pages/WelcomePage.tsx:63 | the back button is disabled exactly at step 0; used by WelcomeUi.WelcomePage.ClickBack |
| WelcomeUi.WelcomePage.ClickBack | frontend/src/pages/WelcomePage.tsx:63 | the back button is disabled at step 0, so a click keeps the step a valid index |
| ThemeModeContext.InitialMode | frontend/src/contexts/ThemeModeContext.tsx:11-13 | the stored mode when it is non-empty, unchecked; otherwise light |
| ThemeModeContext.NextMode | frontend/src/contexts/ThemeModeContext.tsx:17 | light becomes dark; every other value becomes light |
| ThemeModeContext.ToggleTwice | frontend/src/contexts/ThemeModeContext.tsx:17 | two toggles from light or dark return to it |
| ThemeModeContext.ThemeModeProvider.constructor | frontend/src/contexts/ThemeModeContext.tsx:10-13 | the provider starts in the initial mode of the stored value |
| ThemeModeContext.ThemeModeProvider.Toggle | frontend/src/contexts/ThemeModeContext.tsx:15-21 | the mode flips, is then light or dark, and the stored value equals the new mode |

## Left out

- Date and time strings are not modelled: ISO 8601 formatting and parsing (`isoformat`, `fromisoformat`, `toISOString`) and `date()` rendering become integer microseconds and day numbers. Naive versus aware datetimes, `utcnow` versus `now`, and datetime overflow are not modelled either.
- Periods.ParseInt: accepts only an optional sign followed by ASCII digits. Python's `int` also allows surrounding white space, underscores between digits and non-ASCII digits; those inputs are not modelled.
- Floating point is modelled as exact reals. NaN and infinities, rounding, and the client's `toFixed`/`Math.round` display are not modelled. `parseFloat` is a parameter whose NaN result is `None`.
- Password hashing and checking, JWT creation and decoding, and the OpenAI vision call (`image.py`) are outside the model. They appear as function parameters or as carried results (`TokenClaims`, `Analysis`).
- HTTP plumbing is not modelled: routing, URL prefixes, CORS, authentication dependencies and response serialisation. Validation failures are the status codes the framework would send.
- Meals.MealTable.SaveMeal: `imagem_nome` is declared `str` with a `None` default, so the model takes an optional string; non-string JSON values for it are not modelled.
- ChatApi.Signup: `UserCreate` at backend/app/models.py:6-10 declares neither `height_cm` nor `initial_weight`, so as written every new username makes the handler fail with a 500 when it reads them at backend/app/endpoints/chat.py:32. The model gives the body those fields and follows the handler past that point. Also, backend/app/endpoints/chat.py:8 imports a `WeightLog` that backend/app/models.py does not define, which would stop the module from loading; that is not modelled.
- ChatApi.UpdateProfile: the route's `response_model=UserDB` requires `id: str` (backend/app/models.py:17), but the documents created by `chat.py`'s signup have no `id`. For such a user the source saves the change and then answers a 500 when the response is validated; the model answers Success with the edited document. Response validation is not modelled.
- `chat.py`'s `read_profile` (GET /me) only returns the caller's document and is not part of this model.
- The `refeicoes` list is created empty by signup and never filled by any handler; its element type is not fixed by the source.
- UserApi.UpdateProfile: follows Pydantic's `exclude_none` reading of `UserUpdate`. Whether the fields are required depends on the Pydantic version, and that is not modelled.
- The client's network requests are modelled as outcomes passed to one sequential step per handler. Interleavings of concurrent handlers (for example a second fetch finishing first) are not modelled.
- ChatUi.ChatPage.Send: records the persisted bodies but not the save requests' outcomes, which the page ignores.
- ChatUi.ChatPage.HandleFile: the object-URL lifecycle (`createObjectURL`, `revokeObjectURL`) and the file-input reset are not modelled; the preview URL is a parameter.
- ImageAnalysisUi.ImageAnalysisPage: the `preview` state and its object URL (frontend/src/pages/ImageAnalysisPage.tsx:29 and 37-43), created for the chosen file and revoked on change, are not modelled; they only feed the rendered preview.
- The older `backend/frontend/src/pages/ImageAnalysisPage.tsx` copy and `App.tsx`'s own mode toggle duplicate the modelled pages and are not modelled.
- Rendering and styling, the login, signup, settings, list and meal-detail pages, and `localStorage` token handling beyond the theme entry are not modelled.
