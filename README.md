# University portal — a Dafny model of its page logic

The portal is a client-side, single-page web application for Zagazig National University,
written in React and TypeScript. It holds no server state. It keeps three things: the current
view, the signed-in student (if any) and the display language (Arabic or English). Each page
keeps its own form state. This project models that state and the pure logic around it:

- the application shell: sign-in, sign-out, the language toggle, and which screen each view
  shows, including the two views that need a signed-in user (`app.dfy`);
- the layout's profile menu and sidebar drawer (`layout.dfy`);
- the staff directory: a search by name, a faculty filter and a title filter, plus the profile
  modal (`staff_directory.dfy`);
- the staff-evaluation form and the complaints form, each with a submit guard and a reset
  timer (`staff_evaluation.dfy`, `complaints.dfy`);
- the mock sign-in, which builds the student record (`login.dfy`);
- the dashboard's tile click and icon choice, the results page's transcript, and the services
  page's badges and request list (`dashboard.dfy`, `results.dfy`, `services.dfy`);
- the data types (`types.dfy`), with `effects.dfy` for the requests a page makes of the
  application, and two helper modules for strings (`text.dfy`) and filtering (`seqs.dfy`).

Pages that change state step by step are classes. Their methods say, with `modifies this`
and `old`, the whole new state after each event. A control that is on screen only in some
states becomes a `requires` on its event. For example, a star can be clicked only while the
rating form is shown. The evaluation and complaint timers are counters of armed callbacks.
The sign-in timer is the student id its callback captured. In each case a `Tick` method
fires one armed callback. Pages made of expressions are functions, with lemmas relating
them.

A request from a page to the application (navigate, open a link, sign out, toggle the
language, sign in) is an `Effect` value. `App.AppState.Dispatch` applies it. The methods
`App.AppState.SealClicked`, `LogoutClicked`, `LanguageClicked`, `NavItemClicked` and
`ProfileEntryClicked` compose a layout control with `Dispatch`, as the application wires
them.

The mock sign-in uses the typed student id, or `2024001` when the field is empty
(pages/Login.tsx:29). The rest of the record is fixed (`Login.MockUser`,
`Login.OnlyIdVaries`).

## Model

| member | source | states |
|---|---|---|
| Types.ViewOrdinal | types.ts:2-19 | every view has a position in the list of all views |
| Types.AllViewsExact | types.ts:2-19 | there are exactly 16 views, all different, and every view is in the list |
| Types.ViewIdInjective | types.ts:2-19 | two views have the same string value exactly when they are the same view |
| Types.LangCodes | types.ts:21 | a language's code is `ar` or `en`, and it is `ar` exactly for Arabic |
| Text.LowerChar | pages/StaffDirectory.tsx:35 | a lowercased character is never a capital; a capital moves down by 32; every other character is kept |
| Text.Lower | pages/StaffDirectory.tsx:35 | lowercasing keeps the length and works character by character |
| Text.LowerIdempotent | pages/StaffDirectory.tsx:35 | lowercasing twice is the same as lowercasing once |
| Text.LowerSlice | pages/StaffDirectory.tsx:35 | lowercasing a slice is the same as slicing the lowercased string |
| Text.Includes | pages/StaffDirectory.tsx:35 | `includes` is true exactly when the needle occurs at some index of the text |
| Text.IncludesLower | pages/StaffDirectory.tsx:35 | an occurrence survives lowercasing both strings |
| Text.StartsWith | pages/Results.tsx:108 | `startsWith` is true exactly when the prefix occurs at index 0 |
| Seqs.Filter | pages/StaffDirectory.tsx:33 | a filter keeps a subsequence: each kept element with its full count, and nothing else |
| Seqs.FilterKeepsAll | pages/StaffDirectory.tsx:33 | when every element passes, the filter returns its input |
| Seqs.FilterEmpty | pages/StaffDirectory.tsx:142 | the filter returns nothing exactly when no element passes |
| Seqs.SubsequenceOrder | pages/StaffDirectory.tsx:33 | a subsequence keeps the relative order of its elements in the original |
| StaffDirectory.FilterStaff | pages/StaffDirectory.tsx:32-44 | the cards are a subsequence of the table; a professor is kept exactly when the name, faculty and title tests all pass, and keeps its full count |
| StaffDirectory.NoCriteriaListsAll | pages/StaffDirectory.tsx:27-44 | an empty query with both filters on "all" lists the whole table, in either language |
| StaffDirectory.QueryCaseInsensitive | pages/StaffDirectory.tsx:34-36 | a query and its lowercase form list the same professors |
| StaffDirectory.VerbatimNameIsFound | pages/StaffDirectory.tsx:34-42 | a professor whose shown name contains the query is listed whenever both drop-downs admit them |
| StaffDirectory.EmptyStateExactly | pages/StaffDirectory.tsx:142 | the empty-state panel is shown exactly when no professor passes all three tests |
| StaffDirectory.ProfessorOptionKeepsAllProfessorTitles | pages/StaffDirectory.tsx:40 | choosing "Professor" keeps every professor whose title contains the word, in any letter case |
| StaffDirectory.ProfessorOptionKeepsAssociates | pages/StaffDirectory.tsx:40 | because titles match by substring, the "Professor" option also keeps associate professors |
| StaffDirectory.DirectoryPage.constructor | pages/StaffDirectory.tsx:27-30 | the page starts with an empty query, both filters on "all" and no modal, so it lists every professor |
| StaffDirectory.DirectoryPage.SetSearchQuery | pages/StaffDirectory.tsx:69 | typing sets the query and nothing else |
| StaffDirectory.DirectoryPage.SelectFaculty | pages/StaffDirectory.tsx:77-83 | the faculty drop-down sets "all" or an existing faculty id, and nothing else |
| StaffDirectory.DirectoryPage.SelectTitle | pages/StaffDirectory.tsx:86-90 | the title drop-down sets "all" or one of the four titles, and nothing else |
| StaffDirectory.DirectoryPage.OpenProfile | pages/StaffDirectory.tsx:101 | clicking a listed card opens that professor's modal |
| StaffDirectory.DirectoryPage.CloseProfile | pages/StaffDirectory.tsx:158 | the backdrop and the close button both clear the modal, leaving the filters alone |
| StaffDirectory.DirectoryPage.ShowsEmptyState | pages/StaffDirectory.tsx:142 | the empty-state panel is shown exactly when no professor passes the current query and filters |
| App.Toggled | App.tsx:170 | the language toggle always picks the other language |
| App.ToggleTwice | App.tsx:170 | toggling twice restores the language |
| App.RenderContent | App.tsx:42-156 | results and profile show the sign-in form without a user and carry that user otherwise; exactly exams, alumni and research fall to the placeholder |
| App.Render | App.tsx:158-174 | only the landing view is drawn without the layout; every other view is inside it, highlighted |
| App.AppState.constructor | App.tsx:27-29 | the application starts on the landing page, signed out, in Arabic |
| App.AppState.HandleLogin | App.tsx:31-35 | signing in stores the user and opens the dashboard, keeping the language |
| App.AppState.HandleLogout | App.tsx:37-40 | signing out forgets the user and returns to the landing page |
| App.AppState.ToggleLang | App.tsx:170 | the language button switches language and leaves view and user alone |
| App.AppState.SetView | App.tsx:47 | navigating changes only the view |
| App.AppState.Dispatch | App.tsx:163-173 | each page request has its effect on the state; opening an external link changes nothing |
| App.AppState.SealClicked | components/Layout.tsx:38-74 | the sidebar's seal takes the student to the landing page, which is drawn without the layout, keeping user and language; the press closes the profile menu |
| App.AppState.LogoutClicked | components/Layout.tsx:222-224 | the menu's sign-out button, shown only to a signed-in user, signs out and shows the landing page; the menu is then not visible |
| App.AppState.LanguageClicked | components/Layout.tsx:38-140 | the header's language button switches to the other language and keeps the view, the user and the screen, now in the other language; the press closes the profile menu |
| App.AppState.NavItemClicked | components/Layout.tsx:38-99 | a sidebar button opens its view, which the sidebar then highlights, and closes the drawer; the press closes the profile menu |
| App.AppState.ProfileEntryClicked | components/Layout.tsx:204-213 | a profile-menu entry closes the menu; only the profile entry navigates, to the signed-in user's profile |
| Layout.EntryEffect | components/Layout.tsx:204-213 | of the three profile-menu entries, only the profile entry navigates, and it goes to the profile view |
| Layout.DropdownVisible | components/Layout.tsx:186 | the profile menu is drawn only while it is open and someone is signed in |
| Layout.IsHighlighted | components/Layout.tsx:94-99 | a nav button is highlighted exactly when its view is the active one |
| Layout.LayoutState.constructor | components/Layout.tsx:34-35 | the profile menu and the sidebar both start closed |
| Layout.LayoutState.ToggleProfile | components/Layout.tsx:170 | the profile button flips the menu and leaves the sidebar alone |
| Layout.LayoutState.MouseDown | components/Layout.tsx:38-46 | a press outside the mounted dropdown closes the menu; any other press changes nothing |
| Layout.LayoutState.OpenSidebar | components/Layout.tsx:133 | the header's menu button opens the drawer |
| Layout.LayoutState.CloseSidebar | components/Layout.tsx:52-72 | the overlay and the close button close the drawer |
| Layout.LayoutState.ClickNavItem | components/Layout.tsx:87-93 | a nav button asks for its view and closes the drawer |
| Layout.LayoutState.ClickProfileEntry | components/Layout.tsx:186-213 | an entry is clickable only while the menu is shown to a signed-in user; every entry closes the menu |
| StaffEvaluation.ProfessorsOf | pages/StaffEvaluation.tsx:102 | the staff list under a faculty is a subsequence of the table, holding exactly that faculty's professors |
| StaffEvaluation.EvaluationPage.constructor | pages/StaffEvaluation.tsx:15-19 | nothing is selected or rated, and no reset is armed |
| StaffEvaluation.EvaluationPage.CurrentScreen | pages/StaffEvaluation.tsx:34-73 | exactly one screen is shown: thank-you while submitted, else the rating form once a professor is chosen, else the faculty grid |
| StaffEvaluation.EvaluationPage.FormShown | pages/StaffEvaluation.tsx:73 | the rating form is shown when not submitted and a professor is chosen |
| StaffEvaluation.EvaluationPage.SelectionShown | pages/StaffEvaluation.tsx:73 | the faculty grid is shown when not submitted and no professor is chosen |
| StaffEvaluation.EvaluationPage.SubmitDisabled | pages/StaffEvaluation.tsx:179 | the submit button is disabled exactly while the rating is 0 |
| StaffEvaluation.EvaluationPage.SelectFaculty | pages/StaffEvaluation.tsx:79 | a faculty tile selects that faculty |
| StaffEvaluation.EvaluationPage.SelectProfessor | pages/StaffEvaluation.tsx:102-105 | a row of the faculty's list selects that professor |
| StaffEvaluation.EvaluationPage.SetRating | pages/StaffEvaluation.tsx:146-150 | a star sets the rating to its number, 1 to 5, which enables submit |
| StaffEvaluation.EvaluationPage.SetComment | pages/StaffEvaluation.tsx:170 | typing sets the comment |
| StaffEvaluation.EvaluationPage.Submit | pages/StaffEvaluation.tsx:21-32 | with no rating nothing changes; otherwise the thank-you screen shows and one reset is armed |
| StaffEvaluation.EvaluationPage.Cancel | pages/StaffEvaluation.tsx:188 | back and cancel clear the professor, leaving the rest alone |
| StaffEvaluation.EvaluationPage.ReturnToSelection | pages/StaffEvaluation.tsx:45 | the thank-you button clears the professor and the thank-you flag, while the armed reset stays armed |
| StaffEvaluation.EvaluationPage.Tick | pages/StaffEvaluation.tsx:26-31 | the reset clears the flag, rating, comment and professor, but keeps the faculty |
| StaffEvaluation.StaleResetDiscardsNextEvaluation | pages/StaffEvaluation.tsx:26-45 | a reset armed by one evaluation still fires after "Return to Selection" and wipes a second evaluation in progress |
| Complaints.ComplaintsPage.constructor | pages/Complaints.tsx:16-19 | no category, no faculty, no text, not submitted |
| Complaints.CategoryId | pages/Complaints.tsx:98-106 | each category button assigns academic, admin or facilities |
| Complaints.CategoryIdInjective | pages/Complaints.tsx:98-106 | the three buttons assign three different ids |
| Complaints.ComplaintsPage.CurrentScope | pages/Complaints.tsx:124-129 | an empty faculty value is a general university issue; any other value is the id of a faculty the drop-down offers |
| Complaints.ComplaintsPage.SelectCategory | pages/Complaints.tsx:98-106 | a category button sets that one category |
| Complaints.ComplaintsPage.SelectFaculty | pages/Complaints.tsx:124-129 | the drop-down sets the empty value or an existing faculty's id |
| Complaints.ComplaintsPage.SetComplaint | pages/Complaints.tsx:139 | typing sets the complaint text |
| Complaints.ComplaintsPage.HandleSubmit | pages/Complaints.tsx:21-30 | submitting checks nothing, shows the confirmation and arms exactly one reset |
| Complaints.ComplaintsPage.PressSubmit | pages/Complaints.tsx:94-142 | because the text box is required, pressing submit submits exactly when the complaint is not empty |
| Complaints.ComplaintsPage.Tick | pages/Complaints.tsx:24-29 | the reset returns every field to its initial value |
| Login.MockUser | pages/Login.tsx:28-41 | the record's id is the typed id, or 2024001 when empty; it is a level-4 student with 112 credits |
| Login.OnlyIdVaries | pages/Login.tsx:28-41 | two sign-ins give records that differ in the id at most, so the password has no say |
| Login.LoginPage.constructor | pages/Login.tsx:20-22 | both fields start empty and nothing is loading |
| Login.LoginPage.SubmitDisabled | pages/Login.tsx:119 | the submit button is disabled exactly while loading |
| Login.LoginPage.EditStudentId | pages/Login.tsx:83 | typing sets the id |
| Login.LoginPage.EditPassword | pages/Login.tsx:99 | typing sets the password |
| Login.LoginPage.HandleLogin | pages/Login.tsx:24-27 | submitting starts loading, which disables the button, and arms the timer with the current id |
| Login.LoginPage.Tick | pages/Login.tsx:27-42 | the timer signs in with the record built from the id captured at submit |
| Dashboard.ServiceClick | pages/Dashboard.tsx:57-63 | a non-empty link opens that link, even when a view is set; otherwise a view navigates there; with neither, nothing happens |
| Dashboard.ViewsAreTruthy | pages/Dashboard.tsx:60 | every view's string value is non-empty, so a present view always passes the truthiness test |
| Dashboard.LinkOverridesView | pages/Dashboard.tsx:58-59 | with a non-empty link, the tile's view has no effect on the click |
| Dashboard.EmptyLinkIsNoLink | pages/Dashboard.tsx:58 | an empty link behaves as if there were none |
| Dashboard.ServiceIcon | pages/Dashboard.tsx:33-52 | every name has an icon; exactly the unknown names get the monitor; UserCircle and FileCheck get the graduation cap and the check circle |
| Dashboard.IconNamesRoundTrip | pages/Dashboard.tsx:35-49 | every icon but the monitor is chosen by exactly one name |
| Dashboard.WelcomeBadge | pages/Dashboard.tsx:75 | the badge reads "Active Student" exactly when someone is signed in |
| Dashboard.Tiles | pages/Dashboard.tsx:135-148 | one tile per service, in order, each with its icon, title and click action |
| Results.TotalCredits | pages/Results.tsx:86 | a single course's total is its credits, and a total of non-negative credits is non-negative |
| Results.TotalCreditsAppend | pages/Results.tsx:86 | credit totals add up over concatenation |
| Results.MockTotalMatchesHeader | pages/Results.tsx:15-21 | the transcript's credits sum to the 15 the term badge announces |
| Results.MockSemesterMatchesHeader | pages/Results.tsx:16-20 | every row is from Spring 2024, the term the heading names |
| Results.MockCodesDistinct | pages/Results.tsx:16-20 | no course code appears twice |
| Results.StyleOfGrade | pages/Results.tsx:107-111 | an A grade is emerald, a B grade blue, and any other grade (or none) slate |
| Results.StyleIgnoresModifier | pages/Results.tsx:107-111 | a plus or minus after the letter does not change the colour |
| Results.MockGradeStyles | pages/Results.tsx:16-20 | the five rows are coloured emerald, emerald, blue, emerald, blue |
| Results.QualityPoints | pages/Results.tsx:16-20 | one course's quality points are its credits times its grade points, and a list of non-negative courses has non-negative quality points |
| Results.QualityPointsAppend | pages/Results.tsx:16-20 | quality points add up over concatenation, so the transcript's total is the sum over its courses |
| Results.HeaderGpaTruncatesAverage | pages/Results.tsx:125 | the hard-coded term GPA of 3.64 is the weighted average 54.7/15 cut to two decimals, not rounded |
| Services.StatusNamesDistinct | types.ts:85 | the three statuses print differently |
| Services.LaunchEnabled | pages/Services.tsx:66 | the launch button is enabled exactly for an available service |
| Services.StatusTone | pages/Services.tsx:53-56 | the badge is emerald exactly for an available service, amber otherwise |
| Services.BadgeAgreesWithLaunch | pages/Services.tsx:53-66 | the badge is green exactly when the service can be launched |
| Services.CardOf | pages/Services.tsx:45-71 | a card shows the service's status, category and text in the display language, and enables launch exactly when it is available |
| Services.Cards | pages/Services.tsx:44 | one card per service, in order |
| Services.RecentRequests | pages/Services.tsx:82-86 | three requests, with fixed references, in either language |
| Services.CompletedIsMembership | pages/Services.tsx:90 | a request is finished exactly when its status is one of the four finished statuses |
| Services.RowOf | pages/Services.tsx:89-102 | the icon, its tint and the status colour are all decided by the finished test |
| Services.RowIsConsistent | pages/Services.tsx:89-102 | icon, tint and status colour always agree |
| Services.CompletionAgreesAcrossLanguages | pages/Services.tsx:82-90 | each request is finished in Arabic exactly when it is in English: the first and last are, the pending one is not |

## Left out

- services/gemini.ts (the call to a hosted text-generation service) is not part of this model: it is a foreign network call with no logic of its own.
- Rendering is left out: markup, CSS classes, right-to-left layout, animations and most fixed text, such as the dashboard banner's heading. Only the strings a test or a choice depends on are modelled.
- Text.Lower: lowercases ASCII letters only. JavaScript's `toLowerCase` also folds non-ASCII letters, and Unicode case mapping is left out.
- Timers are not modelled as time. The 3000 ms evaluation timer and the 4000 ms complaint timer are counters of armed callbacks. The 1500 ms sign-in timer is the student id its callback captured. A `Tick` method fires one armed callback.
- The complaint ticket number (pages/Complaints.tsx:42) is random and shown only for display, so it is left out.
- Floating-point numbers are exact reals: the GPA 3.82 and the grade points. The hard-coded term GPA 3.64 is text on the results page, and `Results.HeaderGpaTruncatesAverage` compares it as the real 3.64. Formatting (`toFixed`) and the GPA trend bars are left out.
- The browser effects are abstract. `window.open` is the `OpenUrl` effect, the document mousedown listener is `Layout.LayoutState.MouseDown`, and `preventDefault` is implicit.
- The landing page is left out: it only renders, and its `onStart` button calls `setView`, which is `App.AppState.SetView`.
- The faculty-drive page is left out: it only renders and assigns a selection, with no navigation.
- The faculties page is left out: it only renders, with no state and no navigation.
- The constant tables (professors, faculties, services, navigation items) are not in the source shown. They are parameters or constructor arguments.
- Layout.LayoutState: the layout's state is kept across views. React would also reset it when the landing page unmounts the layout, and that reset is left out.
- Layout.LayoutState.OpenSidebar, CloseSidebar, ClickNavItem: each models its click handler alone. A physical click outside the profile menu is `MouseDown(true, false)` followed by that handler, as the `App.AppState` click methods compose it.
- Each page class (`StaffDirectory.DirectoryPage`, `StaffEvaluation.EvaluationPage`, `Complaints.ComplaintsPage`, `Login.LoginPage`) models one mount of its page. Navigating away discards the page's state, and that reset is left out. An evaluation or complaint timer armed before leaving then updates a discarded component. The pending sign-in callback still calls `onLogin`, so the application signs in after the page is gone.
- The search box on the evaluation page (pages/StaffEvaluation.tsx:98) and the filter box on the services page (pages/Services.tsx:35) are not connected to any state, so they have no model.
- Layout.LayoutState.ClickProfileEntry: the "security" and "billing" entries are modelled as doing nothing but closing the menu, since their click handler only navigates for the profile entry.
