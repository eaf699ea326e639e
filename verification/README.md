# WasteWise client — a Dafny model

WasteWise is a waste-segregation web app. Its React client lets a citizen photograph an item and get
a waste category from an image model, earn points and badges, see disposal points on a map and report
problems such as overflowing bins. An administrator can manage reports and collection schedules. This
project models the client's decision logic and state changes in Dafny 4.11 and proves what they promise.

The model covers these parts of the client:

- **Scanner**:
  - the score vector's first maximum, looked up in the model's labels, becomes the category (with `'Unknown'` as the fallback);
  - each category has a display configuration and a recyclability flag;
  - the page's state covers model loading, image choice and classification, and points are awarded and history logged for logged-in users.
- **Badges**: the badge table and the lookup by name with its default.
- **Disposal map**:
  - the marker icon and popup colour chosen by keyword tests on a location's type;
  - the GeoJSON `[longitude, latitude]` order swapped into Leaflet's `[lat, lng]`.
- **Report an issue**: the submit handler's states, the GeoJSON point and the multipart form it sends.
- **Navigation bar**: the avatar initials, the role-specific links, the mobile menu flag and logout.
- **Profile**:
  - the per-category scan counts (one loop updating a map) and what the cards display;
  - the badge colour classes of each history entry.
- **Report management**: status changes of one report in the list, the status colours, loading, deleting and mailing a summary.
- **Schedule editor**: field edits of one schedule in the list, and saving, adding and deleting schedules.
- **Session**: the in-memory user and its stored copy, kept in sync by login, logout and update.
- **Route guards**: the admin-only and logged-in-only guards.
- **Registration and password reset**: the request bodies and the message and loading states of both forms.
- **Article page**: the content split into paragraphs, and the not-found branch.

Every server call is an input. `Api.Outcome` is either a resolved body or a rejection that may carry
the server's `message`. The model's scores, the browser's position and `window.confirm` answers are
inputs as well. A React handler that awaits becomes a method on a class holding the component's state.
It is split at the `await` where the state in between is visible, as with the busy flag of the scanner
and of the two forms.

The scanner takes the plain first maximum and counts `"Dry Waste"` and `"E-waste"` as recyclable
(src/pages/ScannerPage.jsx:71).

## Model

| member | source | states |
|---|---|---|
| Api.MessageOr | src/pages/RegisterPage.jsx:30 | the error text is the server's message when it sent a non-empty one, else the fallback; a non-empty fallback never yields an empty text |
| Scanner.Max | src/pages/ScannerPage.jsx:141 | `Math.max` of a non-empty vector is one of its scores and no score exceeds it |
| Scanner.IndexOf | src/pages/ScannerPage.jsx:141 | `indexOf` is -1 exactly when the value is absent, else the first position holding it |
| Scanner.TopIndex | src/pages/ScannerPage.jsx:141 | the chosen index is -1 exactly for an empty vector, else the first position of a maximal score |
| Scanner.FirstMaxUnique | src/pages/ScannerPage.jsx:141 | any first maximum is the chosen index, so ties go to the lowest index |
| Scanner.Label | src/pages/ScannerPage.jsx:142 | the category is the label at the index when it exists and is non-empty, otherwise `'Unknown'`; it is never empty |
| Scanner.ConfigForSpec | src/pages/ScannerPage.jsx:149 | each of the five categories gets its own configuration entry; every other category, `'Unknown'` included, gets the unknown entry and icon |
| Scanner.RecyclableSpec | src/pages/ScannerPage.jsx:151 | exactly `"Dry Waste"` and `"E-waste"` are recyclable, both are known categories, and `'Unknown'` is not |
| Scanner.ResolveSpec | src/pages/ScannerPage.jsx:141-152 | the result's category is never empty: it is the label at the first maximum score when that label exists and is non-empty, and `'Unknown'` otherwise (always so for no scores); its configuration and recyclability are those of that category |
| Scanner.HistoryFor | src/pages/ScannerPage.jsx:163 | the logged entry carries the result's category and the item text `Classified as <category>` |
| Scanner.ScannerPage.constructor | src/pages/ScannerPage.jsx:80-89 | no file, result, error or model; the status says the model is loading |
| Scanner.ScannerPage.LoadModel | src/pages/ScannerPage.jsx:93-114 | a full load stores the labels and shows ready; a failure shows the failed status and the load error; a model is held if it arrived before the failure; the status stays one of the three texts and ready implies a model |
| Scanner.ScannerPage.HandleFileChange | src/pages/ScannerPage.jsx:116-126 | a picked file replaces the file and clears the result and error; no file changes nothing |
| Scanner.ScannerPage.BeginClassify | src/pages/ScannerPage.jsx:128-131 | without a file or model nothing happens; otherwise loading is set, the error cleared and the button disabled; an enabled button always starts |
| Scanner.ScannerPage.FinishClassify | src/pages/ScannerPage.jsx:133-173 | scores give the resolved result; a thrown inference gives the classify error; a logged-in user whose points call succeeds is updated in sync with storage and the history entry is logged; loading ends on every path |
| Scanner.ScannerPage.HandleClassify | src/pages/ScannerPage.jsx:128-174 | the whole handler: no effect at all without file or model; otherwise loading ends, a successful inference gives the resolved result with the error cleared, a thrown one gives the classify error and keeps the old result; the points update and history entry happen exactly for a logged-in user whose points call succeeds, leaving the session in sync; file, status and labels are kept |
| Badges.Find | src/utils/badgeDefn.js:45 | `find` returns nothing exactly when no badge has the name, else the first badge with exactly that name |
| Badges.GetBadgeDetails | src/utils/badgeDefn.js:44-46 | the result is always a badge of the table: the named one, or the first badge for an unknown name |
| Badges.NamesDistinct | src/utils/badgeDefn.js:4-41 | badge names are pairwise distinct |
| Badges.ThresholdsIncrease | src/utils/badgeDefn.js:4-41 | point thresholds strictly increase from 0 to 1000 |
| Badges.UnknownIsRookie | src/utils/badgeDefn.js:45 | an unknown name yields "Recycling Rookie" with 0 points |
| Badges.CaseSensitive | src/utils/badgeDefn.js:45 | name matching is exact: "green guardian" is unknown, "Green Guardian" is worth 100 |
| DisposalMap.LookupsFollowRules | src/pages/MapPage.jsx:23-39 | both lookups equal the first matching rule of one ordered rule table, so icon and colour always come from the same rule |
| DisposalMap.ColorAgreesWithIcon | src/pages/MapPage.jsx:23-39 | the popup colour is a function of the icon and one of six colours |
| DisposalMap.NoRuleIsOrange | src/pages/MapPage.jsx:29 | a type containing no keyword of any rule gets the orange marker and `#FF8C00` |
| DisposalMap.BatteryBeforeHazardous | src/pages/MapPage.jsx:24-28 | earlier tests win: a type naming 'Battery' and no earlier keyword is gold, whether or not it also names 'Hazardous' |
| DisposalMap.BatteryHazardousEitherOrder | src/pages/MapPage.jsx:24-28 | a type naming 'Hazardous' before 'Battery' (and no earlier keyword) still takes the battery rule |
| DisposalMap.PlasticAlwaysGreen | src/pages/MapPage.jsx:24 | any type containing 'Plastic' is green, whatever else it contains |
| DisposalMap.NoCapitalsIsOrange | src/pages/MapPage.jsx:23-30 | matching is case-sensitive and every keyword has a capital, so a type without capitals is orange |
| DisposalMap.LowerCaseEWasteIsOrange | src/pages/MapPage.jsx:25 | 'e-waste' does not select the E-Waste rule |
| DisposalMap.MarkerPosition | src/pages/MapPage.jsx:113 | the marker is placed at `[coordinates[1], coordinates[0]]`; with one coordinate the latitude is undefined and the longitude is that coordinate; with none both are undefined |
| DisposalMap.LocationRoundTrip | src/pages/MapPage.jsx:113 | a point built by the report page reads back on the map as `[latitude, longitude]` |
| ReportIssue.BuildLocation | src/pages/ReportIssue.jsx:40-43 | a GeoJSON Point whose coordinates are longitude then latitude |
| ReportIssue.BuildFormData | src/pages/ReportIssue.jsx:45-48 | the form holds exactly image, description and location, in that order |
| ReportIssue.ReportIssuePage.constructor | src/pages/ReportIssue.jsx:7-12 | empty form, no messages, not loading |
| ReportIssue.ReportIssuePage.HandleFileChange | src/pages/ReportIssue.jsx:17-23 | a picked file replaces the file; none changes nothing |
| ReportIssue.ReportIssuePage.HandleSubmit | src/pages/ReportIssue.jsx:25-37 | both messages are cleared; without a file, the image error is set, loading ends and nothing is pending; otherwise loading is set and the file and description are captured |
| ReportIssue.ReportIssuePage.OnPosition | src/pages/ReportIssue.jsx:38-66 | the sent form is exactly image, description and the point built from the position; success sets the message and the redirect to "/", failure the submit error; loading ends |
| ReportIssue.ReportIssuePage.OnPositionError | src/pages/ReportIssue.jsx:67-70 | the location error is set and loading ends |
| Navbar.GetInitials | src/components/Navbar.jsx:16-19 | a missing or empty name gives no initials |
| Navbar.FirstCharsSplit | src/components/Navbar.jsx:18 | the first characters of the space-separated pieces are exactly the characters that start a word |
| Navbar.InitialsAreWordStarts | src/components/Navbar.jsx:18 | the initials are the upper-cased word starts of the name |
| Navbar.FirstCharsLength | src/components/Navbar.jsx:18 | one character per non-empty piece |
| Navbar.InitialsLength | src/components/Navbar.jsx:18 | one initial per non-empty piece: extra spaces add nothing |
| Navbar.InitialsOfOneWord | src/components/Navbar.jsx:18 | a name without spaces gives its first character upper-cased |
| Navbar.RoleLinksExclusive | src/components/Navbar.jsx:47-48 | no user sees both role links, anonymous visitors see neither, every logged-in user sees one |
| Navbar.NavbarState.constructor | src/components/Navbar.jsx:8 | the menu starts closed |
| Navbar.NavbarState.ToggleMenu | src/components/Navbar.jsx:74 | the hamburger button flips the menu |
| Navbar.NavbarState.CloseMenu | src/components/Navbar.jsx:89-95 | a mobile link closes the menu |
| Navbar.NavbarState.HandleLogout | src/components/Navbar.jsx:10-14 | logout clears the user and its stored copy, closes the menu and navigates to "/login" |
| Profile.ComputeStats | src/pages/ProfilePage.jsx:34-38 | the loop yields an empty object for no scans; `total` is the number of scans plus the scans categorised "total"; every other key is present exactly for the categories scanned, with its count |
| Profile.DisplayedStats | src/pages/ProfilePage.jsx:53-61 | the cards show the total (0 without scans) and each category's count (0 when absent) |
| Profile.CategoriesSpec | src/pages/ProfilePage.jsx:34-38 | the history's categories, listed once each, are exactly those with a positive count |
| Profile.CountsSumToLength | src/pages/ProfilePage.jsx:34-38 | the per-category counts add up to the number of scans |
| Profile.CategoryStatsSumToTotal | src/pages/ProfilePage.jsx:34-38 | with no scan categorised "total", the keys are `total` plus the categories, and the category entries add up to `total` |
| Profile.TotalCategoryCountsTwice | src/pages/ProfilePage.jsx:35-36 | one scan categorised "total" shows a total of 2 |
| Profile.BadgeClassesSpec | src/pages/ProfilePage.jsx:80-88 | each colour class is present exactly when its keyword occurs in the category; the tests are independent |
| Profile.ScannerEWasteUncoloured | src/pages/ProfilePage.jsx:85 | as written, the category "E-waste" gets no colour class at all |
| Profile.CorrectedColoursScannerEWaste | src/pages/ProfilePage.jsx:85 | with the test spelled 'E-waste', "E-waste" gets exactly the purple class, and purple appears exactly for categories containing 'E-waste' |
| Profile.ScannedEWasteBadge | src/pages/ProfilePage.jsx:85 | a scan resolved to "E-waste" is logged with that category, and its profile badge is uncoloured as written and purple when corrected |
| Profile.ProfilePage.constructor | src/pages/ProfilePage.jsx:7-9 | no history, loading, no error |
| Profile.ProfilePage.FetchHistory | src/pages/ProfilePage.jsx:12-32 | without a user nothing happens; otherwise the history or the load error is set and loading ends |
| ManageReports.SetStatusSpec | src/components/ManageReports.jsx:45 | the list keeps its length; each report with the id gets the new status and keeps its other fields; every other report is unchanged |
| ManageReports.SetStatusKeepsIds | src/components/ManageReports.jsx:45 | length, order, ids, descriptions, users and image links are preserved |
| ManageReports.SetStatusIdempotent | src/components/ManageReports.jsx:45 | the same status change twice equals once |
| ManageReports.SetStatusUnknownId | src/components/ManageReports.jsx:45 | an id no report has leaves the list unchanged |
| ManageReports.StatusColor | src/components/ManageReports.jsx:62-69 | 'new', 'in progress' and 'resolved' (the selector's options, lines 111-113) give yellow, blue and green; gray is given exactly to the other strings |
| ManageReports.StatusColorsDistinct | src/components/ManageReports.jsx:62-68 | the selectable statuses have pairwise distinct colours |
| ManageReports.ManageReportsPanel.constructor | src/components/ManageReports.jsx:6-9 | no reports, loading, no messages |
| ManageReports.ManageReportsPanel.FetchReports | src/components/ManageReports.jsx:12-23 | without a user nothing happens; otherwise the list or the load error is set and loading ends |
| ManageReports.ManageReportsPanel.HandleStatusChange | src/components/ManageReports.jsx:41-49 | the list gets the status change only when the server accepted it; on failure it is untouched and an alert is raised |
| ManageReports.ManageReportsPanel.HandleDelete | src/components/ManageReports.jsx:29-39 | nothing without confirmation; a successful delete reloads the list, keeping the error on a successful reload and setting the load error on a failed one; a failed delete raises an alert and changes nothing |
| ManageReports.ManageReportsPanel.BeginEmailReport | src/components/ManageReports.jsx:52 | the email status reads "Sending..." |
| ManageReports.ManageReportsPanel.FinishEmailReport | src/components/ManageReports.jsx:53-59 | the server's message, or its error message, or the fallback text |
| EditSchedule.ChangeFieldSpec | src/components/EditSchedule.jsx:72 | length and ids are kept; a schedule with the id gets the value in that field and keeps the other; every other schedule is unchanged |
| EditSchedule.ChangeFieldIdempotent | src/components/EditSchedule.jsx:72 | the same edit twice equals once |
| EditSchedule.ChangeFieldCommutes | src/components/EditSchedule.jsx:72 | edits of different schedules or different fields commute |
| EditSchedule.FindSchedule | src/components/EditSchedule.jsx:36 | nothing exactly when no schedule has the id, else the first one that does |
| EditSchedule.SaveSendsEdit | src/components/EditSchedule.jsx:36-42 | after an edit, saving that schedule finds it and sends the edited value |
| EditSchedule.SavedMessage | src/components/EditSchedule.jsx:43 | the success text quotes the area at its fixed position |
| EditSchedule.Render | src/components/EditSchedule.jsx:75-86 | loading first, then the error, else the editor, with the banner exactly when a success text is set |
| EditSchedule.ErrorOutlivesReload | src/components/EditSchedule.jsx:76 | once an error is set, the error view stays however the list reloads |
| EditSchedule.EditSchedulePanel.constructor | src/components/EditSchedule.jsx:6-9 | no schedules, loading, no messages |
| EditSchedule.EditSchedulePanel.FetchSchedules | src/components/EditSchedule.jsx:12-22 | the list or the load error is set, an earlier error is kept, loading ends |
| EditSchedule.EditSchedulePanel.HandleChange | src/components/EditSchedule.jsx:71-73 | the list becomes the edited list |
| EditSchedule.EditSchedulePanel.HandleSave | src/components/EditSchedule.jsx:35-47 | success is cleared first; an unknown id sends nothing and sets the save error; otherwise exactly the found area and collection are sent, and success names the area or the save error is set |
| EditSchedule.EditSchedulePanel.HandleAdd | src/components/EditSchedule.jsx:49-57 | success is cleared; a created schedule reloads the list, a failure sets the add error |
| EditSchedule.EditSchedulePanel.HandleDelete | src/components/EditSchedule.jsx:59-69 | nothing without confirmation; otherwise success is cleared and the list reloads or the delete error is set |
| Auth.AuthProvider.constructor | src/context/AuthContext.jsx:13 | no user on first render; storage untouched |
| Auth.AuthProvider.Restore | src/context/AuthContext.jsx:15-20 | a stored user becomes the current user |
| Auth.AuthProvider.Login | src/context/AuthContext.jsx:22-25 | the user is set in memory and in storage |
| Auth.AuthProvider.Logout | src/context/AuthContext.jsx:27-30 | both copies are cleared, so a second logout changes nothing |
| Auth.AuthProvider.UpdateUser | src/context/AuthContext.jsx:33-36 | the same effect as login |
| PrivateRoute.Decide | src/components/PrivateRoute.jsx:8 | the outlet exactly for a logged-in user; otherwise a replacing redirect to "/login" |
| PrivateRoute.IgnoresAdminFlag | src/components/PrivateRoute.jsx:8 | the decision does not depend on `isAdmin` |
| AdminRoute.Decide | src/components/AdminRoute.jsx:10 | the outlet exactly for a logged-in admin; otherwise a replacing redirect to "/" |
| AdminRoute.AdminIsPrivate | src/components/AdminRoute.jsx:10 | whoever the admin guard admits, the logged-in guard admits |
| Register.BuildUserData | src/pages/RegisterPage.jsx:22-25 | name, email and password are always sent; the key is sent exactly when the admin box is checked and the key is non-empty |
| Register.UncheckedSendsNoKey | src/pages/RegisterPage.jsx:23 | with the box unchecked no key is sent, whatever was typed |
| Register.RegisterPage.constructor | src/pages/RegisterPage.jsx:6-13 | empty form, box unchecked, no messages, not loading |
| Register.RegisterPage.BeginSubmit | src/pages/RegisterPage.jsx:15-25 | loading is set, both messages are cleared, and the body is built from the form |
| Register.RegisterPage.FinishSubmit | src/pages/RegisterPage.jsx:27-33 | success is the server's message, or the error is the server's message or the fallback; loading ends |
| Register.Submit | src/pages/RegisterPage.jsx:15-42 | after a submission loading is off and the form fields are kept; a success sets the server's message with the error cleared, hiding the form when the message is non-empty; a failure keeps the form, with the server's message or the fallback as the error |
| ResetPassword.ResetPasswordPage.constructor | src/pages/resetPage.jsx:6-12 | empty form, no messages, not loading; the token comes from the route |
| ResetPassword.ResetPasswordPage.BeginSubmit | src/pages/resetPage.jsx:15-26 | different passwords set only the mismatch error and make no request; equal ones set loading, clear both messages and request with the route's token and the new password only |
| ResetPassword.ResetPasswordPage.FinishSubmit | src/pages/resetPage.jsx:26-33 | success shows the server's message and schedules "/login"; failure shows the server's message or 'An error occurred.'; loading ends |
| ArticleDetail.Paragraphs | src/pages/ArticleDetail.jsx:37 | one paragraph more than there are line breaks, none containing a line break, and joining them with line breaks gives back the content |
| ArticleDetail.EmptyContentOneParagraph | src/pages/ArticleDetail.jsx:37 | empty content is one empty paragraph |
| ArticleDetail.SingleLine | src/pages/ArticleDetail.jsx:37 | content without a line break is a single paragraph |
| ArticleDetail.FirstLineIsFirstParagraph | src/pages/ArticleDetail.jsx:37 | the first line is the first paragraph and the rest follow |
| ArticleDetail.Render | src/pages/ArticleDetail.jsx:24-25 | loading first; after loading, no article gives the not-found view; else the title and paragraphs |
| ArticleDetail.ArticleDetailPage.constructor | src/pages/ArticleDetail.jsx:6-7 | no article, loading |
| ArticleDetail.ArticleDetailPage.FetchArticle | src/pages/ArticleDetail.jsx:10-22 | loading ends; a failed fetch is only logged, so a page without an article shows "Article not found." |

## Left out

- The image model: runtime start, model and metadata download, preprocessing and inference are floating-point tensor operations of a foreign library. The score vector is an input of `real` values with no NaN. The metadata's `labels` is taken to be a list of strings.
- HTTP through axios: each call's settled outcome is an input. URLs, headers and bearer tokens are not modelled.
- JSON encoding of the stored user and of the report location is treated as exact. `FormData` is a list of entries.
- Browser services are inputs or left out:
  - the position from `navigator.geolocation` is an input;
  - `window.confirm` answers are inputs, and `alert` becomes a returned message;
  - `FileReader` and object-URL previews are not modelled;
  - the three-second `setTimeout` before navigating is a recorded redirect, without its timing.
- Interleaving of concurrent handlers is not modelled, nor React's batching of state updates. In particular:
  - `handleStatusChange` maps the list it captured when called; the model applies the change to the list current when the request settles;
  - `fetchReports` reads the `loading` captured by its closure.
- Leaflet rendering and its resize listener, Chart.js shaping, JSX layout and CSS. The only CSS classes modelled are the status and badge colours.
- Pages that only fetch and render are not part of this model: login, forgot password, the article list, the guide, the leaderboard, the admin dashboard and analytics, schedule and article management, and e-mail verification. The route table is not modelled either.
- Profile.ComputeStats: `acc[scan.category]` on a plain `{}` also reads keys inherited from `Object.prototype`. A category such as `constructor` or `toString` makes the count a string, and `__proto__` stores no own key. The model counts every category alike. The cards read only `total`, `Wet Waste` and `Dry Waste`, so the displayed values are unaffected.
- Scanner.ConfigFor: `WASTE_CATEGORY_CONFIG[category]` also finds keys inherited by every JavaScript object (such as `constructor`). The model treats such a label as unknown.
- Navbar.GetInitials: upper-casing is ASCII-only (`Text.ToUpper`), where JavaScript applies full Unicode case mapping. Characters are Unicode scalar values: for a word starting outside the Basic Multilingual Plane, `n[0]` takes a lone UTF-16 surrogate where the model takes the whole character.
- Scanner.ScannerPage.FinishClassify: whether the history post succeeds is not observable in the page's state, because its failure is only logged. `logged` is the entry that was posted.
- EditSchedule.ChangeField: the computed key `[field]` ranges over the two properties the editor's inputs pass, `area` and `collection`.
- A report's `user` object is reduced to the reporter's name, the only part the table shows ('N/A' when there is none).

## Findings

| source | as written | input that shows it | evidently intended | confidence | as-written member | corrected member |
|---|---|---|---|---|---|---|
| src/pages/ProfilePage.jsx:85 | the purple e-waste badge class is chosen by `scan.category.includes('E-Waste')` | a history entry with category `"E-waste"`, the spelling of the scanner's configuration key (src/pages/ScannerPage.jsx:57), its recyclable list (:71) and the category it posts to the history (:163): no test matches, so the badge is uncoloured. The labels themselves come from the downloaded model metadata, which is not part of this model, and the comment at :57 leaves the spelling unconfirmed | test for `'E-waste'`, so e-waste scans get the purple class | medium: certain for a category spelled "E-waste", but whether the model's labels use that spelling is unconfirmed; not executed | Profile.ScannerEWasteUncoloured | Profile.CorrectedColoursScannerEWaste |
