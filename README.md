# BotBuster in Dafny

BotBuster is a single-page web application that "detects" Twitter bots. A
user registers or logs in against credentials kept in browser storage. On
the model page they enter a profile URL or pick a file. The application
then makes up a profile for the derived username, scores it with a fixed
rule set and a random jitter, and shows the label, the confidence and the
SHAP and LIME style explanations on the interpretability page.

This project models that core and proves properties of it:

- `Auth` (`src/utils/auth.ts`): the credential map and the session user,
  as a class `Store` over the two storage slots.
- `MockData` (`src/utils/mockData.ts`): profile generation, with the random
  draws and the clock as parameters; the bot score, confidence and label;
  the feature, SHAP and LIME tables in their key order; the constant model
  metrics; the follower network.
- `ModelPage` (`src/components/ModelPage.tsx`): username extraction from a
  URL (the regular expression and the fallback), the file-name stem, and the
  page state with its analyze handler.
- `LoginForm` (`src/components/LoginForm.tsx`): the form state, the input
  handler, and the submit handler split at its `await`.
- `App` (`src/App.tsx`): the session, the page selection, the analysis
  hand-over, which screen is rendered, and the wiring of the form and the
  model page to the handlers.
- `Interpretability` (`src/components/InterpretabilityPage.tsx`): the risk
  tier, the placeholder, the bar geometry of both charts, and the formatting
  of feature values.
- `Strings` and `Wrappers`: substring search, decimal digits, `Option`.

Numbers are Dafny `real`s, `Math.floor` is `.Floor` and `Math.round(x)` is
`(x + 0.5).Floor`. Each `Math.random()` call is a parameter in [0, 1).
Clock readings are parameters too, as millisecond numbers: one for
generateMockProfile and one for generatePrediction.

Two results go beyond what the source states.

- No generated profile is ever labelled Bot
  (`MockData.GeneratedProfilesAreLabelledHuman`). A bot-branch profile
  always has a following/follower ratio of at most 2, and its image URL
  never contains "default". Its score is therefore at most 0.55, and the
  jitter keeps the confidence below 0.75. A human-branch profile scores at
  most 0.5: its ratio can exceed 2 and a young account can post more than
  10 tweets a day, but its bio, location and image never add to the score.
- A bot-like profile that scores 0.85 gets a confidence anywhere in
  [0.85, 0.95]. It reaches the 0.95 cap only when the jitter draw is at
  least 0.5 (`MockData.ScenarioBotLike`).

`getModelMetrics` is modelled as the constant function `MockData.GetModelMetrics`;
nothing is proved about its five literals.

## Model

| member | source | states |
|---|---|---|
| `Auth.WithCred` | src/utils/auth.ts:11-15 | the stored map gains the entry for the username, every other entry is unchanged, the key set grows by that username only |
| `Auth.WithCredAccepts` | src/utils/auth.ts:11-20 | after storing a credential it logs in, and logins of every other name are unaffected |
| `Auth.Store.constructor` | src/utils/auth.ts:3-4 | the two storage slots start with the given contents |
| `Auth.Store.StoredUsers` | src/utils/auth.ts:6-9 | an absent users record reads as the empty map, a present one as its contents |
| `Auth.Store.GetStoredUsers` | src/utils/auth.ts:6-9 | returns the stored map, or the empty map when nothing is stored |
| `Auth.Store.StoreUser` | src/utils/auth.ts:11-15 | the users record becomes the old map with the new entry; the session slot is untouched |
| `Auth.Store.ValidateLogin` | src/utils/auth.ts:17-20 | true exactly when the username has an entry whose password equals the given one |
| `Auth.Store.GetCurrentUser` | src/utils/auth.ts:22-25 | returns the session slot's content, none when it is empty |
| `Auth.Store.SetCurrentUser` | src/utils/auth.ts:27-29 | the session slot holds the user; credentials untouched |
| `Auth.Store.Logout` | src/utils/auth.ts:31-33 | the session slot is emptied; credentials untouched |
| `Auth.Store.RegisterUser` | src/utils/auth.ts:35-42 | succeeds exactly for a name not yet stored; on failure nothing changes, on success the credential is stored and logs in |
| `Auth.ReRegistrationKeepsPassword` | src/utils/auth.ts:35-42 | registering a taken name fails, leaves the users record as it was, and the old password still logs in |
| `Auth.RegisterThenLogin` | src/utils/auth.ts:17-42 | registering a fresh name then logging in with the same password succeeds |
| `Auth.LogoutClearsSession` | src/utils/auth.ts:22-33 | after logout no session user is read back and the credentials are unchanged |
| `Auth.SessionRoundTrip` | src/utils/auth.ts:22-29 | the session user read back is the one last written |
| `Strings.ContainsHasChar` | src/utils/mockData.ts:25-26 | every character of a contained string occurs in the containing one (the basis for the `includes` facts) |
| `Strings.DecimalDigitsShape` | src/utils/mockData.ts:89 | the decimal text of a natural is non-empty, all digits, and a single digit exactly below 10 |
| `Strings.DecimalDigitsRoundTrip` | src/utils/mockData.ts:89 | reading the decimal text back gives the number |
| `Strings.DecimalDigitsInjective` | src/utils/mockData.ts:89 | different numbers have different decimal texts |
| `MockData.ScaledFloor` | src/utils/mockData.ts:12-17 | `Math.floor(random * n)` lies in [0, n) |
| `MockData.PhotoUrlHasNoDefault` | src/utils/mockData.ts:17 | no generated image URL contains "default" |
| `MockData.GeneratedProfileRanges` | src/utils/mockData.ts:3-20 | the follower, following and tweet ranges, bio and location of each branch; the capitalised display name; a creation time within the last three years |
| `MockData.BioMarkers` | src/utils/mockData.ts:9-11 | the bot bio contains a marker glyph and the human bio contains none |
| `MockData.RatioDenominators` | src/utils/mockData.ts:23-24 | both divisions divide by at least 1; with no followers the ratio is the following count |
| `MockData.BotScore` | src/utils/mockData.ts:28-33 | the summed increments stay within [0, 1] |
| `MockData.BotScoreExtremes` | src/utils/mockData.ts:28-33 | the score is 0 exactly when no rule fires and 1 exactly when all five fire |
| `MockData.Clamp` | src/utils/mockData.ts:35 | the confidence lies in [0.55, 0.95] and an in-range value is kept |
| `MockData.LabelThreshold` | src/utils/mockData.ts:36 | the label is Bot exactly above 0.75 |
| `MockData.LimeExplanationShape` | src/utils/mockData.ts:56-61 | four LIME rows in fixed order, each weight positive exactly when its bot condition holds, none zero |
| `MockData.ShapValuesShape` | src/utils/mockData.ts:47-54 | six SHAP entries; the bio, completeness and verification signs follow their conditions |
| `MockData.GeneratePrediction` | src/utils/mockData.ts:22-70 | the imperative scoring gives the specified prediction, a confidence in [0.55, 0.95] and the Bot label exactly above 0.75 |
| `MockData.GeneratedProfilesAreLabelledHuman` | src/utils/mockData.ts:3-36 | a generated profile scores at most 0.55, at most 0.5 in the human branch, and is always labelled Human |
| `MockData.ScenarioBotLike` | src/utils/mockData.ts:22-36 | a bot-like profile scores 0.85 and is labelled Bot; its confidence lies in [0.85, 0.95] and is the cap 0.95 exactly when the draw is at least 0.5 |
| `MockData.ScenarioHumanLike` | src/utils/mockData.ts:22-36 | a human-like profile scores 0 and its confidence is the floor 0.55 |
| `MockData.NetworkIdsDistinct` | src/utils/mockData.ts:89-104 | follower ids differ from each other and from every following id, and following ids differ from each other |
| `MockData.GenerateNetworkData` | src/utils/mockData.ts:80-118 | the user node at (200, 200), then 8 followers and 6 followees in order; follower edges point at the user, following edges leave it |
| `ModelPage.FirstMatchFrom` | src/components/ModelPage.tsx:18 | the leftmost position where `twitter.com/` plus a word character occurs, or none at all |
| `ModelPage.RunEnd` | src/components/ModelPage.tsx:18 | the greedy `+`: a maximal run of word characters |
| `ModelPage.StripNonWord` | src/components/ModelPage.tsx:19 | the fallback leaves only word characters and never lengthens the text |
| `ModelPage.StripKeepsWordStrings` | src/components/ModelPage.tsx:19 | a string of word characters passes through unchanged |
| `ModelPage.StripDistributes` | src/components/ModelPage.tsx:19 | stripping a concatenation strips each part |
| `ModelPage.StripSingle` | src/components/ModelPage.tsx:19 | one character is kept exactly when it is a word character |
| `ModelPage.ExtractUsernameFromUrl` | src/components/ModelPage.tsx:17-20 | the username consists of word characters and is no longer than the URL |
| `ModelPage.ExtractTakesLeftmostRun` | src/components/ModelPage.tsx:17-20 | with a match, the username is the whole non-empty word run after the leftmost `twitter.com/` |
| `ModelPage.ExtractWithoutMatch` | src/components/ModelPage.tsx:17-20 | without a match, the username is the URL with non-word characters removed |
| `ModelPage.WordStringHasNoMatch` | src/components/ModelPage.tsx:18 | the pattern never matches inside a username |
| `ModelPage.ExtractIdempotent` | src/components/ModelPage.tsx:17-20 | extracting from an extracted username returns it unchanged |
| `ModelPage.ExtensionUnique` | src/components/ModelPage.tsx:37 | the anchored extension pattern matches at one position at most |
| `ModelPage.ExtensionFrom` | src/components/ModelPage.tsx:37 | the scan finds the extension position, or proves there is none |
| `ModelPage.FileStem` | src/components/ModelPage.tsx:37 | the stem is a prefix of the file name |
| `ModelPage.FileStemDropsExtension` | src/components/ModelPage.tsx:37 | with an extension, the stem is everything before its dot |
| `ModelPage.FileStemKeepsPlainName` | src/components/ModelPage.tsx:37 | without an extension the name is kept whole |
| `ModelPage.FileStemExamples` | src/components/ModelPage.tsx:37 | "a.tar.gz" gives "a.tar"; "noext", "name." and "v1.2/data" are kept |
| `ModelPage.ModelPageState.constructor` | src/components/ModelPage.tsx:11-15 | URL input, empty URL, no file, not loading, no result |
| `ModelPage.ModelPageState.SetInputType` | src/components/ModelPage.tsx:68-79 | only the input type changes |
| `ModelPage.ModelPageState.SetTwitterUrl` | src/components/ModelPage.tsx:102 | only the URL changes |
| `ModelPage.ModelPageState.HandleFileChange` | src/components/ModelPage.tsx:47-52 | a selected file replaces the current one; no selection changes nothing |
| `ModelPage.ModelPageState.EnabledButtonPassesGuards` | src/components/ModelPage.tsx:142 | the button is disabled exactly while loading or while an early return of handleAnalyze would fire, so an enabled button passes both guards |
| `ModelPage.ModelPageState.HandleAnalyze` | src/components/ModelPage.tsx:22-45 | a blank URL or a missing file changes nothing; otherwise the profile of the derived username and its prediction are stored, returned for the callback, and loading ends |
| `LoginForm.WithField` | src/components/LoginForm.tsx:49-53 | the named field takes the new value and the other two keep theirs |
| `LoginForm.ErrorsAreDistinct` | src/components/LoginForm.tsx:28-43 | the messages of the outcomes differ, so the error shown identifies how the submit ended |
| `LoginForm.LoginFormState.constructor` | src/components/LoginForm.tsx:10-17 | login mode, empty fields, no error, not loading |
| `LoginForm.LoginFormState.SetMode` | src/components/LoginForm.tsx:77-88 | only the mode changes |
| `LoginForm.LoginFormState.HandleInputChange` | src/components/LoginForm.tsx:49-55 | one field is updated and the error is cleared |
| `LoginForm.LoginFormState.BeginSubmit` | src/components/LoginForm.tsx:19-37 | the error is cleared and loading starts; register mode without an email stops with its message; otherwise the login or register request is made with the form's values |
| `LoginForm.LoginFormState.FinishSubmit` | src/components/LoginForm.tsx:27-46 | a false reply shows the mode's message, an exception the generic one; loading always ends |
| `LoginForm.LoginFormState.HandleSubmit` | src/components/LoginForm.tsx:19-47 | the whole submit: the request made, the message left for each reply, loading off at the end |
| `App.NoUserShowsLoginForm` | src/App.tsx:72-74 | the login form is rendered exactly when there is no user |
| `App.UnknownPageShowsHome` | src/App.tsx:76-91 | a page name outside the five known ones renders the home page |
| `App.LoginUser` | src/App.tsx:32-37 | the login session user carries the name as id and username and a made-up example.com email |
| `App.RegisteredUser` | src/App.tsx:47-52 | the registered session user carries the name and the given email |
| `App.AppState.constructor` | src/App.tsx:13-21 | no user, the home page, no analysis data |
| `App.AppState.Start` | src/App.tsx:23-28 | a stored session user is restored; otherwise nothing changes |
| `App.AppState.HandleLogin` | src/App.tsx:30-43 | succeeds exactly for valid credentials, then stores and sets the login user; otherwise nothing changes |
| `App.AppState.HandleRegister` | src/App.tsx:45-58 | succeeds exactly for a fresh name, storing the credential and the session user; otherwise nothing changes |
| `App.AppState.HandleLogout` | src/App.tsx:60-65 | the session is cleared in storage and in state, the home page is selected, the analysis data dropped; the login form shows |
| `App.AppState.HandleAnalysisComplete` | src/App.tsx:67-70 | the pair is kept and the interpretability page shows its report |
| `App.AppState.SetCurrentPage` | src/App.tsx:95-97 | only the selected page changes |
| `App.AppState.SubmitLoginForm` | src/App.tsx:73 | a form submit logs in exactly on valid credentials and registers exactly a fresh name, setting the stored and in-memory user; otherwise it shows the matching message and leaves the stored credentials and both users as they were |
| `App.AppState.AnalyzeOnModelPage` | src/App.tsx:81 | a completed analysis is kept on the model page with loading ended and selects the interpretability page showing that profile and prediction; a guarded-out analysis changes neither component; the page inputs are unchanged |
| `Interpretability.RiskTierThresholds` | src/components/InterpretabilityPage.tsx:247-251 | High above 0.8, Medium in (0.6, 0.8], Low otherwise |
| `Interpretability.BotLabelBelowHighRiskThreshold` | src/components/InterpretabilityPage.tsx:247-251 | a Bot label with confidence up to 0.8 is shown as Medium Risk |
| `Interpretability.PlaceholderExactlyWithoutData` | src/components/InterpretabilityPage.tsx:187-199 | the placeholder is shown exactly when the profile or the result is missing |
| `Interpretability.MaxAbs` | src/components/InterpretabilityPage.tsx:37 | the maximum magnitude bounds every value and is attained |
| `Interpretability.BarWidthBounds` | src/components/InterpretabilityPage.tsx:54 | a bar is between zero and the chart width wide, full width for the maximum, zero for zero |
| `Interpretability.BarGeometry` | src/components/InterpretabilityPage.tsx:51-69 | each bar sits in its row within the chart width, growing right of the zero line for positive values and left of it otherwise |
| `Interpretability.FullWidthBarExists` | src/components/InterpretabilityPage.tsx:37-54 | some bar spans the whole chart width |
| `Interpretability.RowsDoNotOverlap` | src/components/InterpretabilityPage.tsx:39-53 | bars shorter than the row spacing never overlap |
| `Interpretability.ChartRowsAreSeparated` | src/components/InterpretabilityPage.tsx:110-126 | the bars of both charts never overlap |
| `Interpretability.ShapBarValues` | src/components/InterpretabilityPage.tsx:36 | the chart values are the SHAP values in key order |
| `Interpretability.LimeBarValues` | src/components/InterpretabilityPage.tsx:110 | the chart values are the LIME weights in list order |
| `Interpretability.GeneratedChartsDrawEveryBar` | src/components/InterpretabilityPage.tsx:14-24 | every generated prediction has a non-zero SHAP and LIME maximum, so both charts are drawn |
| `Interpretability.VerificationStatusDisplay` | src/components/InterpretabilityPage.tsx:180-181 | "Yes" exactly above 0.5, "No" otherwise |
| `Interpretability.VerificationShownAsProfileFlag` | src/components/InterpretabilityPage.tsx:180-181 | the verification feature reads "Yes" exactly for a verified profile |
| `Interpretability.AgeRounding` | src/components/InterpretabilityPage.tsx:178-179 | the account age is shown as the nearest whole number, halves rounded up |

## Left out

- Rendering: markup, icons, styles, and the text and axis lines drawn on the canvases; the bars are modelled as rectangles.
- ResultsPage, AboutPage, HomePage and Navigation are not part of this model; App only records which of them is shown.
- Browser storage is a pair of slots holding values. JSON text, a record that fails to parse, and lookups of inherited keys such as `__proto__` are not modelled.
- Each `Math.random()` result and each `Date.now()` reading is a parameter. The profile's creation time is a millisecond number; its ISO text is not modelled.
- generatePrediction reads the clock twice, for the tweets per day and for the account age. The model uses one reading `now` for both, so it does not capture the two readings differing by the time between them.
- Arithmetic is exact. IEEE rounding, `toFixed` and `toLocaleString` text are not modelled. `Display` records which format is used, not the characters.
- `Math.cos` and `Math.sin` in the network layout are the `polar` parameter.
- `toUpperCase` changes ASCII letters only.
- Timing: the 2-second delay, React's batching of state updates, and a component unmounting while awaiting are not modelled. Each handler runs to completion.
- `App.AppState.SubmitLoginForm`: does not reach the exception path. In the source, `JSON.parse` in getStoredUsers can throw inside both handlers when the stored users record is malformed, and LoginForm's catch then shows the generic message. Parse failure is not modelled, so neither handler throws here; `LoginForm.LoginFormState.FinishSubmit` still covers the thrown reply.
- A chart whose values are all zero divides 0 by 0. The canvas then gets NaN widths and draws nothing visible. `BarAt` models that case as no bar.
- `formatFeatureValue` is modelled for numeric values only; the features are always numbers.
