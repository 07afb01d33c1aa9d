# formFront, modelled in Dafny

formFront is the React administration front end of a procurement-tracking
service. Logged-in staff use it to register procurement processes, register
users, list the stored processes and manage users. Under the markup, each page
follows a small set of deterministic rules, and this project states those
rules and proves them:

- the remaining-time label of the process form, its field reducer with the
  derived execution percentage, the exhaustive validation of a draft, the
  payload sent to the backend, and the in-flight guard around submission
  (`ProcessForm`);
- the `props` unwrap and the per-column stand-ins for missing values of the
  process table (`AdminProcessTable`);
- `capitalizeWords`, the field updates that use it, and the derivation of the
  full name and initial password of a new user (`RegisterUser`);
- the generated 12-character password, the confirmed deletion that filters
  the list by id, and the toasts of a password change (`UsersTable`);
- the page-to-route map, the active page and the administrator-only buttons
  of the bar (`Header`);
- the classification of a login reply and the storage of the token
  (`LoginPage`);
- the user restored from `localStorage`, logout, and the two route tables
  with their catch-all redirects (`App`).

Three supporting modules model the JavaScript and browser facilities the
pages rely on:

- `Browser` models an HTTP reply as an input value, `localStorage` as a
  `Storage` object holding a map, a toast as a `Notice`, and `JSON.parse` as a
  `ParseResult`.
- `Decimal` models decimal text of integers.
- `JsString` models `trim`, the NaN test of `Number(text)` (a scanner for the
  StringNumericLiteral grammar of ECMAScript), `parseFloat`, `<` on strings,
  and `toUpperCase` / `toLowerCase`.

Each component whose handlers update state is a class. Its fields are the
component's `useState` variables and each handler is a method. One handler
call is one atomic step, and what the outside world supplies is a parameter:

- the HTTP reply;
- the answer to `window.confirm`;
- the success of the clipboard write;
- the values `Math.random()` returns;
- the day difference and the birth year computed from `Date`;
- the result of `JSON.parse`.

The rules themselves (labels, cells, routes, validation) are functions, and
the lemmas beside them relate each one to a partner:

- an inverse, e.g. reading a label back, joining a split, or reading a
  payload back into the draft;
- a character-by-character reference definition;
- an invariant the operation keeps.

The validation block of `handleSubmit` is a method (`ProcessForm.Validate`)
that runs the fourteen tests as written, each assigning its own key of a
local map. It is split into five methods along the blocks of the source so
that each proof stays small. It is proved to yield `ErrorsFrom`, the map
with one report per failing rule.

One consequence of the code is worth knowing. The login page writes only
"access_token" to storage, and the shell only reads "user". So a login by
itself never gets past the anonymous route table, not even after a reload
(`App.LoginThenReload`).

## Model

| member | source | states |
|---|---|---|
| ProcessForm.RemainingLabel | src/pages/ProcessForm.tsx:31-57 | `calculateRemainingTime` never yields "", the text a cleared date leaves; ParseLabelRoundTrip and LabelInjective state that each day difference gets its own label |
| ProcessForm.ParseLabel | src/pages/ProcessForm.tsx:38-52 | the reader of labels, the partner of `RemainingLabel`: it reads "" as no difference |
| ProcessForm.ParseLabelRoundTrip | src/pages/ProcessForm.tsx:38-52 | the remaining-time label of every day difference (and of NaN) reads back to exactly that difference, so no two cases share a label |
| ProcessForm.LabelClassifiesDifference | src/pages/ProcessForm.tsx:40-52 | "Hoje" iff the difference is 0, "Ontem" iff -1, "1 dia restante" iff 1, "Data inválida" iff the difference is NaN |
| ProcessForm.LabelInjective | src/pages/ProcessForm.tsx:40-52 | two differences get the same label iff they are equal |
| ProcessForm.RemainingCountRoundTrip | src/pages/ProcessForm.tsx:40-41 | for d > 1 the label "{d} dias restantes" reads back to d |
| ProcessForm.ElapsedCountRoundTrip | src/pages/ProcessForm.tsx:48-49 | for d < -1 the label "{abs(d)} dias decorridos" reads back to d |
| ProcessForm.CountBeforeOfCount | src/pages/ProcessForm.tsx:41 | the count in front of a suffix is read back from its decimal text |
| ProcessForm.ExecutionPercentage | src/pages/ProcessForm.tsx:122-124 | a total that parses to 0, to a negative number or to nothing gives percentage 0 |
| ProcessForm.PercentageZeroForUnusableTotal | src/pages/ProcessForm.tsx:122-124 | a blank total, or one starting with '-', gives percentage 0 whatever was executed |
| ProcessForm.PercentageOfWholeNumbers | src/pages/ProcessForm.tsx:122-124 | for whole numbers typed as digits with a positive total, the percentage is executed / total * 100 exactly |
| ProcessForm.PercentageWithinRange | src/pages/ProcessForm.tsx:122-124 | when 0 <= executed <= total, the percentage lies in [0, 100] |
| ProcessForm.ChangeField | src/pages/ProcessForm.tsx:116-129 | the named text input takes the value, and the counts and remaining time are kept; for the two money inputs the percentage is recomputed from the updated draft, for every other input it is kept |
| ProcessForm.ChangeFieldLeavesOthers | src/pages/ProcessForm.tsx:119 | every text input other than the edited one keeps its value |
| ProcessForm.ChangeNumber | src/pages/ProcessForm.tsx:131-146 | `handleNumberChange` replaces the one count named and nothing else; its percentage branch can never run |
| ProcessForm.RefreshRemainingTime | src/pages/ProcessForm.tsx:148-160 | with a service-order date set, the remaining time is the label that reads back to the day difference; with the date cleared it is ""; no other field changes |
| ProcessForm.RuleError | src/pages/ProcessForm.tsx:175-221 | the test of each input and its message; only the fourteen inputs the validation tests can ever be reported |
| ProcessForm.ErrorsFrom | src/pages/ProcessForm.tsx:173-221 | a key is in the error object iff its rule fires, with that rule's message: the rules do not short-circuit; `Validate` proves the code builds exactly this object |
| ProcessForm.ValidationErrors | src/pages/ProcessForm.tsx:173-221 | the same on a draft: each input is reported iff its own test fails on the draft |
| ProcessForm.ReportsSnoc | src/pages/ProcessForm.tsx:173-221 | one more test at the end lays its own report, if any, over the reports of the earlier tests |
| ProcessForm.RulesUpToReports | src/pages/ProcessForm.tsx:173-221 | after the first n tests the object holds exactly the reports of the first n rules, one per key: no test overwrites another |
| ProcessForm.FlagTest | src/pages/ProcessForm.tsx:175-192 | a single-message test as written assigns its key exactly as the rule for that input does |
| ProcessForm.MoneyTest | src/pages/ProcessForm.tsx:193-202 | an if / else-if money test as written assigns its key exactly as the rule for that input does |
| ProcessForm.CheckRequiredChoices | src/pages/ProcessForm.tsx:175-186 | the tests of the name and the three selections, run on `{}`, leave the reports of the first four rules |
| ProcessForm.CheckCounts | src/pages/ProcessForm.tsx:187-192 | the two count tests, run on what the first four left, leave the reports of the first six rules |
| ProcessForm.CheckMoney | src/pages/ProcessForm.tsx:193-202 | the two money tests, run on what the first six left, leave the reports of the first eight rules |
| ProcessForm.CheckRiskChoices | src/pages/ProcessForm.tsx:204-212 | the three risk selections, run on what the first eight left, leave the reports of the first eleven rules |
| ProcessForm.CheckDateBounds | src/pages/ProcessForm.tsx:213-221 | the three date tests, run on what the first eleven left, leave the reports of all fourteen rules |
| ProcessForm.Validate | src/pages/ProcessForm.tsx:172-221 | the validation block, started on `{}`, yields exactly `ErrorsFrom`: one report per failing rule, with its message |
| ProcessForm.ClearFiresNoText | src/pages/ProcessForm.tsx:176-221 | when every test passes, no text input's rule fires |
| ProcessForm.ClearFiresNothing | src/pages/ProcessForm.tsx:176-221 | when every test passes, no rule fires |
| ProcessForm.ClearMeansNoErrors | src/pages/ProcessForm.tsx:173-225 | when every test passes, the error object is empty |
| ProcessForm.NoErrorsNoRule | src/pages/ProcessForm.tsx:173-225 | an empty error object means the rule of any given input did not fire |
| ProcessForm.NoErrorsClearsSelections | src/pages/ProcessForm.tsx:176-212 | an empty error object means the name is not blank and none of the six selects is empty |
| ProcessForm.NoErrorsClearsValues | src/pages/ProcessForm.tsx:188-203 | an empty error object means both counts are non-negative and both amounts are non-blank and numeric |
| ProcessForm.NoErrorsClearsDates | src/pages/ProcessForm.tsx:213-221 | an empty error object means none of the three dates is past the bound |
| ProcessForm.NoErrorsMeansClear | src/pages/ProcessForm.tsx:173-225 | an empty error object means all sixteen tests passed |
| ProcessForm.NoErrorsIffAllClear | src/pages/ProcessForm.tsx:173-225 | the error object is empty iff all sixteen tests pass |
| ProcessForm.NoErrorsIffPasses | src/pages/ProcessForm.tsx:173-225 | a draft gets an empty error object iff it meets every condition of the validation, listed test by test |
| ProcessForm.BlankNameReported | src/pages/ProcessForm.tsx:176-178 | a process name of only white space is reported with "O nome do processo é obrigatório." |
| ProcessForm.EmptySelectReported | src/pages/ProcessForm.tsx:179-212 | any of the six selects left empty is reported, whatever else the draft holds |
| ProcessForm.TotalMessagesExclusive | src/pages/ProcessForm.tsx:194-198 | the total is reported iff it is blank or not numeric; blank text gets only "obrigatório", other non-numeric text only "deve ser um número" |
| ProcessForm.ExecutedMessagesExclusive | src/pages/ProcessForm.tsx:199-203 | the same two exclusive messages for the executed amount |
| ProcessForm.StrLessTrichotomy | src/pages/ProcessForm.tsx:213 | any two strings are equal or one is less than the other under `<` |
| ProcessForm.DateTooLate | src/pages/ProcessForm.tsx:213-221 | `date && date > "9999-09-09"`: the bound itself and every string below it pass; DateBoundIsChronological gives its meaning on dates |
| ProcessForm.DigitFieldOrder | src/pages/ProcessForm.tsx:213 | digit fields of one length compare as text like their numbers, and are equal iff their numbers are |
| ProcessForm.DateTooLateByFields | src/pages/ProcessForm.tsx:213-221 | for YYYY-MM-DD text the string test compares the year, then the month, then the day, each as text |
| ProcessForm.DateBoundIsChronological | src/pages/ProcessForm.tsx:213-221 | for a YYYY-MM-DD date, the string test against "9999-09-09" holds iff the date is after 9 September 9999 |
| ProcessForm.FiveDigitYearPassesBound | src/pages/ProcessForm.tsx:213-215 | "10000-01-01" sorts below "9999-09-09" as text, so the bound lets it through unreported |
| ProcessForm.ToPayload | src/pages/ProcessForm.tsx:235-257 | each backend field of the POST body holds the draft field of the same meaning, the percentage as a fraction of 1, and the three provenance fields hold the user information |
| ProcessForm.PayloadRoundTrip | src/pages/ProcessForm.tsx:235-257 | no field of the draft is lost: reading the POST body back gives the draft, and the provenance is attached as given |
| ProcessForm.OptionValues | src/pages/ProcessForm.tsx:357-365 | the submitted values are exactly the values of the listed options |
| ProcessForm.ContractTypeValueCount | src/pages/ProcessForm.tsx:357-365 | eight contract-type labels submit only five distinct values |
| ProcessForm.SubmitNotice | src/pages/ProcessForm.tsx:260-291 | success toast iff the reply is ok; "Erro ao enviar os dados." iff the request threw or a rejection's body did not parse |
| ProcessForm.ProcessFormPage.constructor | src/pages/ProcessForm.tsx:60-81 | the page starts with the empty draft, not submitting, no errors |
| ProcessForm.ProcessFormPage.HandleChange | src/pages/ProcessForm.tsx:116-130 | the draft becomes the reducer's result, and the flag and errors are kept |
| ProcessForm.ProcessFormPage.HandleNumberChange | src/pages/ProcessForm.tsx:131-146 | the draft becomes the count update, and the flag and errors are kept |
| ProcessForm.ProcessFormPage.SyncRemainingTime | src/pages/ProcessForm.tsx:148-160 | the effect's update of the remaining time, and nothing else changes |
| ProcessForm.ProcessFormPage.BeginSubmit | src/pages/ProcessForm.tsx:163-296 | while submitting, a press does nothing; otherwise the errors become what `Validate` gives for the draft, and the request is built iff they are empty; a rejected draft clears the flag |
| ProcessForm.ProcessFormPage.CompleteSubmit | src/pages/ProcessForm.tsx:260-294 | the flag is cleared on every path; on success the draft and errors are reset, otherwise both are kept |
| AdminProcessTable.Unwrap | src/pages/AdminProcessTable.tsx:40 | `data.map(item => item.props)`: same length, element i is item i's props |
| AdminProcessTable.UnwrapAppend | src/pages/AdminProcessTable.tsx:40 | unwrapping distributes over concatenation, so the order of the reply is kept |
| AdminProcessTable.OrCell | src/pages/AdminProcessTable.tsx:93-97 | an absent or empty text shows "N/A", any other text shows itself |
| AdminProcessTable.CoalesceCell | src/pages/AdminProcessTable.tsx:121-126 | only an absent text shows "N/A"; an empty one shows as it is |
| AdminProcessTable.CountCell | src/pages/AdminProcessTable.tsx:98-99 | a count shows "N/A" iff it is absent; 0 is shown |
| AdminProcessTable.ReaisCell | src/pages/AdminProcessTable.tsx:100-105 | an amount is formatted as reais iff present, otherwise "N/A" |
| AdminProcessTable.PercentCell | src/pages/AdminProcessTable.tsx:106-108 | a percentage is formatted iff present, otherwise "N/A" |
| AdminProcessTable.DateCell | src/pages/AdminProcessTable.tsx:109-120 | a date is formatted iff it is a non-empty string, otherwise "-" |
| AdminProcessTable.Row | src/pages/AdminProcessTable.tsx:92-127 | a body row has one cell per heading |
| AdminProcessTable.Body | src/pages/AdminProcessTable.tsx:91-128 | one row per process, in order, each the row of that process |
| AdminProcessTable.TableIsRectangular | src/pages/AdminProcessTable.tsx:67-128 | twenty headings, and every body row has twenty cells |
| AdminProcessTable.EmptyAndZeroCells | src/pages/AdminProcessTable.tsx:93-121 | the or-fallback and the nullish fallback differ on "": an empty id shows "N/A", an empty commitment number shows "", a count of 0 shows "0" |
| AdminProcessTable.ProcessTablePage.constructor | src/pages/AdminProcessTable.tsx:27-29 | no processes, loading, no error |
| AdminProcessTable.ProcessTablePage.Load | src/pages/AdminProcessTable.tsx:31-48 | loading ends on every path; a good reply replaces the list with the unwrapped items; a non-ok, unparsable or thrown reply sets the error and keeps the list |
| AdminProcessTable.ProcessTablePage.Render | src/pages/AdminProcessTable.tsx:53-63 | loading text while loading, then the error text if any, otherwise the table with the headings and one row per process |
| AdminProcessTable.Mount | src/pages/AdminProcessTable.tsx:27-63 | after the fetch, a failed reply shows the error with no processes; a good reply shows the table of the unwrapped items |
| RegisterUser.Split | src/pages/RegisterUser.tsx:18 | `split(" ")` always yields at least one piece |
| RegisterUser.SplitPiecesHaveNoSpace | src/pages/RegisterUser.tsx:18 | no piece holds a space |
| RegisterUser.JoinSplit | src/pages/RegisterUser.tsx:18-20 | joining the pieces with single spaces gives the text back, runs of spaces included |
| RegisterUser.Capitalize | src/pages/RegisterUser.tsx:19 | recasing a word keeps its length |
| RegisterUser.CapitalizeAll | src/pages/RegisterUser.tsx:19 | each piece is recased on its own, in place |
| RegisterUser.CaseFrom | src/pages/RegisterUser.tsx:16-21 | the character-by-character reference keeps the length |
| RegisterUser.CaseFromBySplit | src/pages/RegisterUser.tsx:16-21 | the reference equals split, recase and join, from any starting state |
| RegisterUser.CapitalizeWords | src/pages/RegisterUser.tsx:16-21 | `capitalizeWords` equals the character-by-character reference `CaseFrom`: upper case after a space or at the start, lower case elsewhere |
| RegisterUser.CaseFromAt | src/pages/RegisterUser.tsx:19 | each character of the result, by position: upper-cased where a word opens, lower-cased elsewhere |
| RegisterUser.CapitalizeWordsKeepsSpaces | src/pages/RegisterUser.tsx:16-21 | the result has the same length and spaces in exactly the same positions |
| RegisterUser.CaseFromIdempotent | src/pages/RegisterUser.tsx:16-21 | applying the reference twice equals applying it once |
| RegisterUser.CapitalizeWordsIdempotent | src/pages/RegisterUser.tsx:16-21 | normalising a name twice gives the same as once |
| RegisterUser.ChangeInput | src/pages/RegisterUser.tsx:23-29 | name and surname are stored normalised, email and birth date verbatim, and every other field is kept |
| RegisterUser.RetypingNameIsStable | src/pages/RegisterUser.tsx:23-29 | re-entering the name the input already shows leaves the form unchanged |
| RegisterUser.YearText | src/pages/RegisterUser.tsx:45-46 | an unparsable birth date gives "NaN", and only it does |
| RegisterUser.RegistrationFor | src/pages/RegisterUser.tsx:43-56 | the full name is name, one space, surname; the password starts with the surname; email and role are as in the form |
| RegisterUser.PasswordCarriesYear | src/pages/RegisterUser.tsx:45-46 | what follows the surname in the password reads back as the birth year |
| RegisterUser.RegisterOutcome | src/pages/RegisterUser.tsx:59-68 | success toast and navigation to /processos iff the reply is ok; a rejection shows the backend message or "Erro desconhecido"; a throw shows "Erro ao enviar os dados." |
| RegisterUser.MissingMessageIsUnknown | src/pages/RegisterUser.tsx:63-64 | a rejection without a message shows "Erro ao cadastrar usuário: Erro desconhecido" |
| RegisterUser.RegisterUserPage.constructor | src/pages/RegisterUser.tsx:6-13 | empty form with role "user", not submitting |
| RegisterUser.RegisterUserPage.HandleChange | src/pages/RegisterUser.tsx:23-29 | the form becomes the field update, and the flag is kept |
| RegisterUser.RegisterUserPage.HandleRoleChange | src/pages/RegisterUser.tsx:31-33 | only the role changes |
| RegisterUser.RegisterUserPage.BeginRegister | src/pages/RegisterUser.tsx:35-57 | nothing is sent iff a submission is in flight; otherwise the request built from the form is sent and the flag is set |
| RegisterUser.RegisterUserPage.CompleteRegister | src/pages/RegisterUser.tsx:59-71 | the toast and route of the reply, and the flag cleared in `finally` |
| UsersTable.AlphabetSize | src/pages/UsersTable.tsx:40 | the alphabet has 62 symbols |
| UsersTable.IsRandomDraw | src/pages/UsersTable.tsx:43 | a value `Math.random()` can return, in [0, 1), always scales to an index into the alphabet |
| UsersTable.DrawIndex | src/pages/UsersTable.tsx:43 | `Math.floor(Math.random() * 62)` is an index into the alphabet |
| UsersTable.PasswordFrom | src/pages/UsersTable.tsx:41-46 | one symbol per draw, each the alphabet symbol the draw picks |
| UsersTable.GenerateRandomPassword | src/pages/UsersTable.tsx:39-47 | the loop builds exactly the password the draws pick: 12 symbols, each from the alphabet |
| UsersTable.RemoveId | src/pages/UsersTable.tsx:100 | a user remains iff it was listed and its id differs |
| UsersTable.RemoveIdAppend | src/pages/UsersTable.tsx:100 | the filter works piece by piece, so the users that remain keep their order |
| UsersTable.RemoveAbsentId | src/pages/UsersTable.tsx:100 | a list without the id is left as it is |
| UsersTable.RemoveIdIdempotent | src/pages/UsersTable.tsx:100 | filtering the same id twice equals filtering once |
| UsersTable.PasswordChangeNotices | src/pages/UsersTable.tsx:49-81 | the last toast is success iff the PUT was ok and the copy worked, and a warning iff it was ok and the copy failed; every toast is an error iff the PUT failed, ending with the generic error |
| UsersTable.DeleteNotices | src/pages/UsersTable.tsx:83-105 | no toast when not confirmed; otherwise success iff the DELETE was ok, else the error |
| UsersTable.UsersPage.constructor | src/pages/UsersTable.tsx:14-16 | no users, loading, no error |
| UsersTable.UsersPage.Load | src/pages/UsersTable.tsx:18-37 | loading ends on every path; a good reply replaces the list; a failure sets the error and keeps the list |
| UsersTable.UsersPage.HandleDeleteUser | src/pages/UsersTable.tsx:83-105 | a request goes out iff confirmed; the list is filtered by the id iff confirmed and ok, otherwise unchanged |
| UsersTable.UsersPage.HandlePasswordChange | src/pages/UsersTable.tsx:49-81 | the generated password is sent and the toasts are those of the reply; the page state is not modified |
| Header.RouteFor | src/components/Header.tsx:8-19 | a route exists iff the page is one of the four known names |
| Header.RoutesAreDistinct | src/components/Header.tsx:10-18 | the four pages lead to four different routes |
| Header.IsAdmin | src/components/Header.tsx:25-41 | `user.role === "admin"`: only a role that is a JSON string can qualify; Title, Render and App.AdminButtonsOnlyForAdminRole state what it decides |
| Header.Title | src/components/Header.tsx:24-26 | the title says "Administrador" iff the role is "admin", otherwise "Usuário" |
| Header.Render | src/components/Header.tsx:21-83 | name and Sair always shown; no buttons unless the role is "admin", then four; each leads to a route and is active iff it is the active page |
| Header.OneActiveButton | src/components/Header.tsx:27-73 | at most one button is active, and for an administrator on a known page exactly one |
| Header.HeaderComponent.constructor | src/components/Header.tsx:6 | the active page starts as "respostas" |
| Header.HeaderComponent.HandleNavigation | src/components/Header.tsx:8-19 | the page becomes active whatever it is; navigation happens to its route, and to none for an unknown page |
| LoginPage.Outcome | src/pages/LoginPage.tsx:14-31 | token stored iff the reply is ok with a truthy token; connection error iff the request or the body read threw; bad credentials iff otherwise the body says 401 |
| LoginPage.FailureMessages | src/pages/LoginPage.tsx:24-31 | a failure always carries one of the three error messages |
| LoginPage.OkWithoutTokenAnd401 | src/pages/LoginPage.tsx:21-25 | an ok reply without a token but with status 401 reads as bad credentials |
| LoginPage.LoginPageComponent.constructor | src/pages/LoginPage.tsx:5-8 | all four fields empty |
| LoginPage.LoginPageComponent.HandleSubmit | src/pages/LoginPage.tsx:10-32 | both messages are cleared first, so at most one is set; the token is written only on success and storage is untouched otherwise |
| App.Resolve | src/App.js:39-56 | matching ignores ASCII case and trailing slashes; logged in, exactly the three routes show a page and the rest redirect to /processos; logged out, only "/" shows (the login page) and the rest redirect to "/" |
| App.LowerPath | src/App.js:43-51 | the path with each ASCII capital lowered, position by position |
| App.DropTrailingSlashes | src/App.js:43-51 | a prefix of the path with no trailing "/", only slashes dropped |
| App.CanonicalRoutePath | src/App.js:43-51 | a lower-case path without a trailing slash is matched as written |
| App.TrailingSlashIgnored | src/App.js:43-51 | a path with one more trailing "/" resolves like the path |
| App.AsciiCaseIgnored | src/App.js:43-51 | two paths that differ only in ASCII case resolve alike |
| App.MixedCasePathExample | src/App.js:44 | logged in, "/Cadastrar-Usuario/" shows the registration page |
| App.LandingOf | src/App.js:43-47 | logged in, a canonical path shows the page of its route or redirects to /processos |
| App.OneRedirectSettles | src/App.js:43-55 | a redirect lands on a shown page in one hop; the login page shows iff logged out |
| App.HeaderRoutesLanding | src/App.js:43-47 | the bar's /visualizar-processos and /visualizar-usuarios are not routes and land on /processos; its other two routes show their pages |
| App.TableUnreachableFromHeader | src/App.js:46 | no button of the bar reaches the process table |
| App.Member | src/App.js:41 | `user.key` is an object's own field, otherwise undefined |
| App.Draw | src/App.js:39-56 | the bar is drawn iff a user is set, from its role and name fields, and the path is resolved by the table in force |
| App.AdminButtonsOnlyForAdminRole | src/App.js:41 | the administrator buttons appear iff the user is an object whose role field is the string "admin"; an array user never gets them |
| App.AppComponent.constructor | src/App.js:10 | no user |
| App.AppComponent.RestoreUser | src/App.js:12-29 | absent or empty stored text changes nothing; text parsing to an object or array becomes the user; anything else removes the key and leaves no user |
| App.AppComponent.HandleLogout | src/App.js:31-35 | "access_token" and "user" are removed, every other key is kept, and the user is cleared |
| App.LogoutEndsSession | src/App.js:31-55 | after logout no session key is left and every path leads to the login page within one redirect |
| App.LoginThenReload | src/App.js:12-29 | from storage without "user", a login followed by a reload still resolves /processos to a redirect to "/" |
| Browser.ListItems | src/pages/UsersTable.tsx:21-27 | the items are delivered iff the reply is ok and its array parsed |
| Browser.Or | src/pages/RegisterUser.tsx:64 | the or-fallback keeps a non-empty string and replaces an absent or empty one |
| Browser.Coalesce | src/pages/AdminProcessTable.tsx:121 | the nullish fallback replaces only an absent value |
| Browser.Storage.GetItem | src/App.js:13 | `getItem` returns a stored value iff the key is present |
| Browser.Storage.SetItem | src/pages/LoginPage.tsx:22 | `setItem` sets one key and keeps the rest |
| Browser.Storage.RemoveItem | src/App.js:32-33 | `removeItem` drops one key and keeps the rest |
| Decimal.NatToString | src/pages/ProcessForm.tsx:41 | decimal text of a number: non-empty, all digits, no leading zero |
| Decimal.ParseNatOfNatToString | src/pages/ProcessForm.tsx:41 | the decimal text reads back to the number |
| Decimal.NatToStringInjective | src/pages/ProcessForm.tsx:41 | different numbers have different decimal texts |
| Decimal.IntToString | src/pages/RegisterUser.tsx:46 | the text of an integer starts with '-' iff it is negative |
| Decimal.IntToStringRoundTrip | src/pages/RegisterUser.tsx:46 | the text of an integer reads back to it |
| JsString.TrimStart | src/pages/ProcessForm.tsx:176 | drops exactly the leading white space |
| JsString.TrimEnd | src/pages/ProcessForm.tsx:176 | drops exactly the trailing white space |
| JsString.BlankIffAllWhite | src/pages/ProcessForm.tsx:176 | blank text is text of nothing but white space |
| JsString.Trim | src/pages/ProcessForm.tsx:176-199 | `trim` leaves text with no white space at either end, no longer than before; `!s.trim()` holds exactly for blank text |
| JsString.BlankIsNumeric | src/pages/ProcessForm.tsx:196 | `Number` of blank text is 0, not NaN: the scanner accepts it |
| JsString.IsNumericText | src/pages/ProcessForm.tsx:196-201 | `!isNaN(Number(s))` holds for blank text; the example lemmas below give numeric and non-numeric texts |
| JsString.NaturalTextIsNumeric | src/pages/ProcessForm.tsx:196 | the digits of a whole number are numeric |
| JsString.NotNumericExamples | src/pages/ProcessForm.tsx:196 | "-", "abc", "1 2" and "-0x1" are NaN |
| JsString.PaddedDecimalIsNumeric | src/pages/ProcessForm.tsx:196 | " 12.5e3 " is numeric |
| JsString.HexIsNumeric | src/pages/ProcessForm.tsx:196 | "0x1F" is numeric |
| JsString.SignedInfinityIsNumeric | src/pages/ProcessForm.tsx:196 | "-Infinity" is numeric |
| JsString.ParseFloat | src/pages/ProcessForm.tsx:122 | a positive result needs text that, past white space, does not start with '-' |
| JsString.ParseFloatOfNatToString | src/pages/ProcessForm.tsx:122 | `parseFloat` of a whole number's digits is that number |
| JsString.ParseFloatOrZero | src/pages/ProcessForm.tsx:122-123 | `parseFloat(x)`, or 0 in place of NaN, is 0 for blank text, and any other result is the parsed number |
| JsString.StrLessIsNumericOrder | src/pages/ProcessForm.tsx:213 | for digit strings of one length, `<` on strings is numeric order |
| JsString.StrLess | src/pages/ProcessForm.tsx:213 | `<` on strings: never between equal strings, and a proper prefix is less than the text it starts |
| JsString.StrLessAsymmetric | src/pages/ProcessForm.tsx:213 | no two strings are each less than the other |
| JsString.CaseMappingFacts | src/pages/RegisterUser.tsx:19 | case mapping never creates or removes a space, and is idempotent |

## Left out

- Network: every `fetch` is replaced by its reply as an input (`HttpReply`, `ListReply`). `getUserInfo` (src/pages/ProcessForm.tsx:84-114) queries two web services and the navigator, so its result is a `UserInfo` parameter.
- ExecutionPercentage: exact real arithmetic. The `toFixed(2)` rounding at src/pages/ProcessForm.tsx:125 is not modelled, because binary floating point is out of scope. The same holds for `percentualExecucao / 100` in the payload and for the `toFixed(2)` of the table's amount cells.
- JsString.ParseFloat: the decimal value is exact. Rounding to a double is not modelled, and the text "Infinity" is read as NaN rather than as an infinite total.
- RefreshRemainingTime: the `Date` arithmetic and `Math.ceil` are replaced by the day difference as an input (`DayDiff`, NaN for an unparsable date). The `catch` returning "Erro ao calcular" cannot be reached, since `new Date` does not throw.
- RegistrationFor: the birth year from `getFullYear` is an input. It depends on the time zone.
- GenerateRandomPassword: the values `Math.random()` returns are the input `draws`.
- The clipboard write and `window.confirm` are boolean inputs.
- `JSON.parse` is the input `ParseResult`.
- `toLocaleDateString` is not modelled: a date cell keeps the ISO text.
- Toasts are `Notice` values. `console` output is not modelled.
- React scheduling is not modelled: batching, effect timing and unmounting. Each handler is one atomic step, and each asynchronous handler is split in two at its `await` on the request (`BeginSubmit`/`CompleteSubmit`, `BeginRegister`/`CompleteRegister`).
- ChangeNumber: `Number(value)` is taken as an integer. A fractional count such as "2.5", which the source stores as 2.5, is not modelled. An emptied input stores 0, since `Number("")` is 0.
- ToUpper / ToLower: case mapping covers ASCII and the Latin-1 letters. Other Unicode mappings are not modelled, including the one-to-many ß→SS, ÿ→Ÿ and µ→Μ.
- AdminProcessTable.ReaisCell / PercentCell: a null amount is treated like an absent one ("N/A"). The source calls `toFixed` on null and the render throws.
- UsersTable: `createdAt` is only formatted for display and is left out, as is the table markup.
- The login page's email and password inputs are plain setters and are not modelled as handlers.
- LoginPage: the `setUser` prop that src/App.js:53 passes is ignored by the page. No user object is stored at login and there is no redirect by role.
- App.Resolve: a path is matched after lowering its ASCII capitals and dropping trailing slashes. React Router also decodes percent escapes and lowers non-ASCII capitals; neither is modelled.
- All JSX markup and styling are not modelled, beyond the headings, titles and button captions the model names.
