# credit-fit in Dafny

credit-fit is a payroll-loan web application. Companies and employees sign up. Employees simulate a loan and submit a proposal. An administrator approves or rejects proposals. This project models the parts of it that carry logic:

- the input masks for CPF and CNPJ numbers and the digit stripping behind them (`Masks`, over the JavaScript built-ins in `Decimal`);
- the sign-up validation rules (`Schemas`);
- the sign-up page's guarded field updates, salary display, submit transform and submission flags (`SignUp`);
- the three-step loan simulation wizard (`NewProposal`);
- the in-memory proposals endpoint with its per-user GET and appending POST (`ProposalsApi`);
- the administrator's grouped list with its status update and access rule (`AdminProposals`);
- the employee dashboard with its hideable, numbered cards (`Dashboard`).

`Wrappers` holds `Option`, `Auth` the session values the pages read, and `Browser` the `alert`/`router.push` effects and routes.

The masks are modelled as written: each regular-expression `replace` becomes a search for the leftmost run of digits followed by an insertion, and the final `(-\d{2})\d+?$` becomes a trim after the dash. Lemmas then prove the chain equal to a closed-form layout of digit groups and separators (`Masks.Layout`). The round-trip, idempotence, length and full-layout properties are proved about that layout.

Pages that hold state (the sign-up forms, the wizard, the admin list, the dashboard) and the module-level proposal list are classes. Their handlers are methods that state the whole new state. Pure computations are functions, with lemmas relating them.

The CPF and CNPJ check-digit validators and the e-mail check come from libraries. They are the function-valued fields of `Schemas.Validators`, and nothing is assumed about them. Session lookups, `fetch` results, parsed request bodies and clock readings are method parameters.

## Model

| member | source | states |
|---|---|---|
| `Masks.RemoveMask` | lib/masks.ts:31-33 | the result holds only digits, is no longer than the input, and is the input itself when that is all digits |
| `Masks.RemoveMaskCounts` | lib/masks.ts:31-33 | every digit character occurs in the result as often as in the input; no other character occurs |
| `Masks.RemoveMaskAppend` | lib/masks.ts:31-33 | stripping distributes over concatenation, so the digits keep their order |
| `Masks.RemoveMaskIdempotent` | lib/masks.ts:31-33 | stripping twice is stripping once |
| `Masks.FindRun` | lib/masks.ts:4 | the regex search: the leftmost position at or after `i` where `k` digits start, or none when no such position exists |
| `Masks.InsertAfterRun` | lib/masks.ts:4-6 | one non-global `(\d{w})(\d)` replacement adds at most one character |
| `Masks.FindDashTail` | lib/masks.ts:7 | the leftmost match of `-\d{2}\d+$`, a dash followed by at least three digits that run to the end; none exactly when no position matches |
| `Masks.TrimAfterDashPair` | lib/masks.ts:7 | the final replacement only cuts a suffix: the result is a prefix of its input |
| `Masks.InsertAfterRunLayout` | lib/masks.ts:4-6 | on a laid-out digit string whose groups are no wider than `w`, one more replacement adds exactly one more group |
| `Masks.TrimLayout` | lib/masks.ts:7 | the trim keeps exactly two digits after the final dash and drops the rest |
| `Masks.RemoveMaskLayout` | lib/masks.ts:31-33 | removing the mask from a layout gives back its digits |
| `Masks.LayoutLength` | lib/masks.ts:1-18 | a layout adds at most one separator per group |
| `Masks.ApplyCpfMask` | lib/masks.ts:1-8 | the masked CPF is the `ddd.ddd.ddd-dd` layout of the first 11 digits of the input, as the replace steps produce it |
| `Masks.ApplyCnpjMask` | lib/masks.ts:10-18 | the masked CNPJ is the `dd.ddd.ddd/dddd-dd` layout of the first 14 digits of the input, as the replace steps produce it |
| `Masks.CpfMaskLayout` | lib/masks.ts:1-8 | the four steps as written (`Masks.CpfMaskSteps`) equal the `ddd.ddd.ddd-dd` layout of the first 11 digits of the input |
| `Masks.CnpjMaskLayout` | lib/masks.ts:10-18 | the five steps as written (`Masks.CnpjMaskSteps`) equal the `dd.ddd.ddd/dddd-dd` layout of the first 14 digits of the input |
| `Masks.CpfMaskOnlyDigits` | lib/masks.ts:2 | the CPF mask depends only on the digits of its input |
| `Masks.CnpjMaskOnlyDigits` | lib/masks.ts:11 | the CNPJ mask depends only on the digits of its input |
| `Masks.CpfMaskRoundTrip` | lib/masks.ts:1-8 | removing the CPF mask gives the first min(11, n) digits; the masked text has at most 14 characters |
| `Masks.CnpjMaskRoundTrip` | lib/masks.ts:10-18 | removing the CNPJ mask gives the first min(14, n) digits; the masked text has at most 18 characters |
| `Masks.CpfMaskIdempotent` | lib/masks.ts:1-8 | masking a masked CPF changes nothing |
| `Masks.CnpjMaskIdempotent` | lib/masks.ts:10-18 | masking a masked CNPJ changes nothing |
| `Masks.CpfMaskFull` | lib/masks.ts:3-7 | with at least 11 digits the result is exactly `ddd.ddd.ddd-dd` over the first 11 digits, 14 characters |
| `Masks.CnpjMaskFull` | lib/masks.ts:12-17 | with at least 14 digits the result is exactly `dd.ddd.ddd/dddd-dd` over the first 14 digits, 18 characters |
| `Masks.ApplyCurrencyMask` | lib/masks.ts:20-29 | blank exactly when the input has no digit; otherwise the amount whose cents `parseInt` reads from the digits |
| `Decimal.ParseDecimal` | lib/masks.ts:24 | `parseInt` of k digits is below 10^k, at least 10^(k-1) without a leading zero, and the digit's value for one digit |
| `Decimal.ToDecimal` | app/criar-conta/page.tsx:310 | `toString` of a non-negative integer is a non-empty digit string that starts with 0 only for 0 |
| `Decimal.PadStart` | app/dashboard/page.tsx:169 | `padStart` fills in front up to the width, keeps the string as its suffix, and leaves a string already that wide as it is |
| `Decimal.ParseToDecimal` | app/criar-conta/page.tsx:310-316 | `parseInt` of `n.toString()` is `n` |
| `Decimal.ParseZeroPadded` | app/dashboard/page.tsx:169 | `padStart` with "0" keeps the number a digit string reads as |
| `Auth.RoleOf` | app/propostas/page.tsx:34 | `session?.user?.role`: missing without a session or a user, otherwise the user's role |
| `Auth.UserIdOf` | app/api/proposals/route.ts:43 | `session.user?.id`: missing without a user, otherwise the user's id |
| `Auth.ConfiguredSession` | types/next-auth.d.ts:2-12 | the session declared here, as the authentication handler's `session` callback fills it: the user carries the token's `sub` as id and its role, next to name and e-mail |
| `Auth.DefaultSession` | app/api/proposals/route.ts:36 | `getServerSession()` without the handler's options gives a user with name and e-mail but no id and no role |
| `Schemas.CompanyIssues` | lib/schemas.ts:7-17 | no issue exactly when the legal name has at least 8 characters, the trade name at least 4, and the e-mail, CPF and CNPJ pass their validators; a short legal name is the first issue |
| `Schemas.EmployeeFieldIssues` | lib/schemas.ts:20-37 | no field issue exactly when the name has 4 to 32 characters, e-mail and CPF pass, the salary is an integer from 100000 to 9999999, and a non-empty company CNPJ passes |
| `Schemas.EmployeeIssues` | lib/schemas.ts:19-46 | accepted exactly when every field check and the cross-field rule hold; a broken cross-field rule is reported last, on `currentlyEmployed` |
| `Schemas.AcceptedSalary` | lib/schemas.ts:27-31 | an accepted salary is a whole number of cents within the range |
| `Schemas.EmptyCompanyCnpjPasses` | lib/schemas.ts:33-36 | an absent or empty company CNPJ passes its check whatever the validator says |
| `Schemas.NoneOptionRefused` | lib/schemas.ts:33-36 | the page's "none" company option reaches the CNPJ validator and, when the validator refuses it, the record is rejected |
| `Schemas.NormalizedCompany` | app/criar-conta/page.tsx:79 | the "none" company reads as no company; every other field is kept |
| `Schemas.EmployeeIssuesIntended` | lib/schemas.ts:33-45 | the intended rule: identical to the schema except that "none" with `currentlyEmployed` false is accepted when the other fields pass |
| `SignUp.DigitFieldEdit` | app/criar-conta/page.tsx:182-186 | a CPF or CNPJ edit stores the typed digits when there are at most `limit` of them and otherwise keeps the stored value |
| `SignUp.DigitFieldEditKeeps` | app/criar-conta/page.tsx:209-213 | a digits-only field of at most `limit` digits stays so after any edit |
| `SignUp.CpfRetypeKeeps` | app/criar-conta/page.tsx:181-186 | typing back the displayed CPF leaves the stored CPF unchanged |
| `SignUp.CnpjRetypeKeeps` | app/criar-conta/page.tsx:208-213 | typing back the displayed CNPJ leaves the stored CNPJ unchanged |
| `SignUp.SalaryEdit` | app/criar-conta/page.tsx:313-323 | no digits store 0; digits reading at most 9999999 store that number; a larger number leaves the value unchanged |
| `SignUp.SalaryEditKeeps` | app/criar-conta/page.tsx:313-323 | the stored salary stays within 0 to 9999999 |
| `SignUp.SalaryEditDigits` | app/criar-conta/page.tsx:314-318 | typing the decimal digits of an amount within range stores that amount |
| `SignUp.SalaryDisplay` | app/criar-conta/page.tsx:308-312 | the input is blank exactly when the stored amount is not positive, and otherwise shows that amount |
| `SignUp.CurrencyMaskOfDecimal` | app/criar-conta/page.tsx:310 | formatting the decimal text of a positive amount reads back that amount |
| `SignUp.SubmitData` | app/criar-conta/page.tsx:76-80 | `currentlyEmployed` is true exactly when the company is neither "" nor "none"; the company is absent exactly when it was "none" or absent; the other fields are copied |
| `SignUp.SubmitDataConsistent` | app/criar-conta/page.tsx:78-79 | for any company string the sent record satisfies the cross-field rule |
| `SignUp.SubmitDataUndefinedCompany` | app/criar-conta/page.tsx:78 | an absent company would be sent as employed and break the cross-field rule |
| `SignUp.SubmitDataAccepted` | app/criar-conta/page.tsx:76-80 | under the intended company rule, every record that passes validation is sent as a record the schema accepts |
| `SignUp.NoneChoiceIntended` | app/criar-conta/page.tsx:76-80 | under the intended rule, choosing "none" passes validation and is sent as not employed with no company |
| `SignUp.SubmitEffects` | app/criar-conta/page.tsx:91-100 | on success, a confirmation and the move to sign-in; otherwise exactly one alert, with the server's non-empty message or the generic text |
| `SignUp.CompanyForm.constructor` | app/criar-conta/page.tsx:25-31 | CPF and CNPJ start empty, which is well-formed |
| `SignUp.CompanyForm.EditCpf` | app/criar-conta/page.tsx:181-188 | the CPF becomes the guarded edit, the CNPJ is unchanged, and both stay well-formed |
| `SignUp.CompanyForm.EditCnpj` | app/criar-conta/page.tsx:208-215 | the CNPJ becomes the guarded edit, the CPF is unchanged, and both stay well-formed |
| `SignUp.CompanyForm.CpfShown` | app/criar-conta/page.tsx:181 | the CPF input shows at most 14 characters that unmask back to the stored CPF |
| `SignUp.CompanyForm.CnpjShown` | app/criar-conta/page.tsx:208 | the CNPJ input shows at most 18 characters that unmask back to the stored CNPJ |
| `SignUp.EmployeeForm.constructor` | app/criar-conta/page.tsx:36-43 | the defaults: empty CPF, salary 0, not employed, company "" |
| `SignUp.EmployeeForm.EditCpf` | app/criar-conta/page.tsx:276-283 | only the CPF changes, by the guarded edit |
| `SignUp.EmployeeForm.EditSalary` | app/criar-conta/page.tsx:313-323 | only the salary changes, by the guarded edit, and it stays in range |
| `SignUp.EmployeeForm.SelectCompany` | app/criar-conta/page.tsx:341 | the chosen option's value is stored as it is |
| `SignUp.EmployeeForm.Values` | app/criar-conta/page.tsx:34-44 | the form always holds a string for the company, never an absent value |
| `SignUp.EmployeeForm.CpfShown` | app/criar-conta/page.tsx:276 | the CPF input shows at most 14 characters that unmask back to the stored CPF |
| `SignUp.EmployeeForm.SalaryShown` | app/criar-conta/page.tsx:308-312 | the salary input is blank exactly while the salary is 0, and otherwise shows the stored amount |
| `SignUp.SignUpPage.constructor` | app/criar-conta/page.tsx:20 | the page starts not loading |
| `SignUp.SignUpPage.BeginEmployeeSubmit` | app/criar-conta/page.tsx:73-80 | loading is set and the transformed record is what is sent |
| `SignUp.SignUpPage.BeginCompanySubmit` | app/criar-conta/page.tsx:46-55 | loading is set and the record is sent as it is |
| `SignUp.SignUpPage.FinishSubmit` | app/criar-conta/page.tsx:101-103 | loading is cleared whatever the outcome, and the effects follow the outcome |
| `NewProposal.InstallmentOptions` | app/nova-proposta/page.tsx:31-36 | exactly four options, for 1, 2, 3 and 4 installments, each of which times its count is the amount |
| `NewProposal.ProposalBody` | app/nova-proposta/page.tsx:57-61 | the body carries the amount and the count, and its installment value times the count is the amount |
| `NewProposal.BodyMatchesOption` | app/nova-proposta/page.tsx:57-61 | the posted installment value is the one the chosen option showed |
| `NewProposal.Chosen` | app/nova-proposta/page.tsx:48 | the submit guard passes exactly when a count is selected and it is not 0 (`null` and 0 are falsy) |
| `NewProposal.SubmitEffects` | app/nova-proposta/page.tsx:64-70 | an ok answer navigates to the page again; anything else alerts "Erro ao criar proposta" |
| `NewProposal.Redirect` | app/nova-proposta/page.tsx:21-29 | unauthenticated users go to sign in, authenticated administrators to the administration page, and nobody else moves |
| `NewProposal.PageView` | app/nova-proposta/page.tsx:76-78 | the loading screen exactly while the session loads; the wizard exactly when a session is present |
| `NewProposal.LoanWizard.constructor` | app/nova-proposta/page.tsx:16-19 | step 1, amount 1000, nothing selected, not loading |
| `NewProposal.LoanWizard.SetAmount` | app/nova-proposta/page.tsx:116-122 | only the amount changes, to a slider value |
| `NewProposal.LoanWizard.Simulate` | app/nova-proposta/page.tsx:38-40 | the step becomes 2 and nothing else changes |
| `NewProposal.LoanWizard.SelectInstallment` | app/nova-proposta/page.tsx:42-45 | the count is recorded and the step becomes 3 |
| `NewProposal.LoanWizard.BackToAmount` | app/nova-proposta/page.tsx:196 | step 2 goes back to step 1 and nothing else changes |
| `NewProposal.LoanWizard.BackToOptions` | app/nova-proposta/page.tsx:255 | step 3 goes back to step 2 and the recorded count is kept |
| `NewProposal.LoanWizard.BeginSubmit` | app/nova-proposta/page.tsx:47-61 | without a chosen count there is no request and loading is untouched; otherwise loading is set and the body for the chosen count is returned |
| `NewProposal.LoanWizard.FinishSubmit` | app/nova-proposta/page.tsx:64-73 | loading is cleared whatever the outcome; the step, amount and choice are kept |
| `NewProposal.SubmitFromSummary` | app/nova-proposta/page.tsx:47-61 | from the summary step a request is always made, for the count and installment value of the chosen option |
| `ProposalsApi.InitialProposals` | app/api/proposals/route.ts:5-32 | two proposals of user "2": id "1" approved and id "2" pending, each with installments that add up to its amount |
| `ProposalsApi.ProposalsOf` | app/api/proposals/route.ts:43 | a proposal is listed exactly when it is stored with the session user's id |
| `ProposalsApi.ProposalsOfAppend` | app/api/proposals/route.ts:43 | the filter distributes over concatenation, so storage order is kept |
| `ProposalsApi.NewProposal` | app/api/proposals/route.ts:62-74 | a pending "Seguros Seguradora" proposal with the body's amount, count and installment value; the session user's id, name and e-mail; the given due date and creation time; and an id that is the clock reading in decimal |
| `ProposalsApi.ProposalStore.constructor` | app/api/proposals/route.ts:5-32 | the store starts with the two initial proposals |
| `ProposalsApi.ProposalStore.Get` | app/api/proposals/route.ts:34-50 | 401 "Unauthorized" without a session; otherwise 200 with exactly the stored proposals of the session user, in storage order |
| `ProposalsApi.ProposalStore.Post` | app/api/proposals/route.ts:52-83 | 401 without a session and 500 for an unreadable body, both with the store unchanged; otherwise exactly one new pending proposal is appended and returned with 201 |
| `ProposalsApi.PostThenGet` | app/api/proposals/route.ts:43-76 | after a POST the poster's listing is the previous listing followed by the new proposal |
| `ProposalsApi.PostOtherUser` | app/api/proposals/route.ts:43-76 | another user's POST leaves a listing unchanged |
| `ProposalsApi.InitialListing` | app/api/proposals/route.ts:5-43 | at start-up user "2" sees both proposals and anyone else sees none |
| `ProposalsApi.DefaultSessionsShareListing` | app/api/proposals/route.ts:36-76 | as written, sessions have no id: nobody lists the seeded proposals, and one user's POST appears in every user's listing |
| `ProposalsApi.ConfiguredSessionsSeparateListings` | app/api/proposals/route.ts:36-76 | with the handler's options: user "2" lists the seeded proposals, a POST extends the poster's listing, and no other user's |
| `AdminProposals.WithStatus` | app/propostas/page.tsx:103-107 | a proposal is in the group exactly when it is in the list with that status |
| `AdminProposals.Grouped` | app/propostas/page.tsx:103-107 | each of the pending, approved and rejected groups holds exactly the proposals with that status |
| `AdminProposals.GroupSizes` | app/propostas/page.tsx:103-107 | the three group sizes plus the number of unknown statuses is the list length |
| `AdminProposals.GroupsCoverAll` | app/propostas/page.tsx:16 | when every status is one of the three, the group sizes sum to the list length |
| `AdminProposals.GroupsDisjoint` | app/propostas/page.tsx:103-107 | no proposal is in two groups |
| `AdminProposals.WithStatusAppend` | app/propostas/page.tsx:103-107 | grouping keeps list order |
| `AdminProposals.SetStatus` | app/propostas/page.tsx:70 | same length and order; a proposal with the id has only its status changed; the others are unchanged |
| `AdminProposals.SetStatusMoves` | app/propostas/page.tsx:70 | after the update every proposal with that id has the new status |
| `AdminProposals.SetStatusOtherIds` | app/propostas/page.tsx:70 | if no proposal has the id, every group is unchanged |
| `AdminProposals.SetStatusGrowsTarget` | app/propostas/page.tsx:70 | the group of the new status never shrinks |
| `AdminProposals.SetStatusIdempotent` | app/propostas/page.tsx:70 | applying the same update twice equals applying it once |
| `AdminProposals.StatusText` | app/propostas/page.tsx:90-101 | pending, approved and rejected map to "Pendente", "Aprovado" and "Rejeitado"; the text is "Desconhecido" exactly for any other status |
| `AdminProposals.StatusColor` | app/propostas/page.tsx:77-88 | yellow, green and red classes for the three statuses; the gray class exactly for any other status |
| `AdminProposals.LabelsDistinguish` | app/propostas/page.tsx:77-101 | different known statuses get different texts and colours |
| `AdminProposals.RedirectAsWritten` | app/propostas/page.tsx:31-37 | unauthenticated visitors go to sign in; nobody moves exactly when the status is not unauthenticated and the session role is admin |
| `AdminProposals.AdminSentAwayWhileLoading` | app/propostas/page.tsx:31-37 | while the session is loading the visitor is sent to the dashboard |
| `AdminProposals.Redirect` | app/propostas/page.tsx:31-37 | as written, except that nothing happens while the session loads |
| `AdminProposals.AdminStays` | app/propostas/page.tsx:31-37 | with the intended rule an administrator is never sent away |
| `AdminProposals.OnlyAdminStays` | app/propostas/page.tsx:31-37 | once the status is known, only an authenticated administrator stays |
| `AdminProposals.PageView` | app/propostas/page.tsx:109-115 | "Carregando..." exactly while the session or the list loads; the groups are shown only to an administrator |
| `AdminProposals.AdminProposalsPage.constructor` | app/propostas/page.tsx:28-29 | an empty list and loading |
| `AdminProposals.AdminProposalsPage.LoadProposals` | app/propostas/page.tsx:45-57 | only an ok response replaces the list; loading ends whatever happens |
| `AdminProposals.AdminProposalsPage.UpdateProposalStatus` | app/propostas/page.tsx:59-75 | only an ok PATCH changes the list, and then by setting the status of the proposals with that id |
| `Dashboard.Toggled` | app/dashboard/page.tsx:54-62 | the id is hidden afterwards exactly when it was shown before; every other id keeps its membership |
| `Dashboard.ToggleTwice` | app/dashboard/page.tsx:54-62 | toggling the same id twice restores the set |
| `Dashboard.TogglesCommute` | app/dashboard/page.tsx:54-62 | toggles of two ids commute |
| `Dashboard.StatusText` | app/dashboard/page.tsx:77-88 | "EMPRÉSTIMO CORRENTE" exactly for approved, "SOLICITAÇÃO DE EMPRÉSTIMO" for every other status |
| `Dashboard.StatusSubtext` | app/dashboard/page.tsx:90-99 | "Crédito aprovado" for approved, "Reprovado por score" for rejected, and empty exactly for any other status |
| `Dashboard.CardNumber` | app/dashboard/page.tsx:169 | a card number has at least two characters |
| `Dashboard.CardNumberValue` | app/dashboard/page.tsx:169 | a card number is a digit string that reads as `index + 1` |
| `Dashboard.CardNumberPadded` | app/dashboard/page.tsx:169 | the first nine cards are numbered "01" to "09" |
| `Dashboard.CardNumbersDistinct` | app/dashboard/page.tsx:169 | different cards carry different numbers |
| `Dashboard.CardView` | app/dashboard/page.tsx:165-257 | the card's collapsible content is present exactly when the id is not hidden; "Total Financiado" exactly for approved; "Mais detalhes" exactly for pending; a subheading exactly for approved or rejected |
| `Dashboard.ToggleOnlyThatCard` | app/dashboard/page.tsx:202 | a toggle removes or restores the collapsible content of the cards with that id and changes no other card |
| `Dashboard.PageView` | app/dashboard/page.tsx:101-124 | "Carregando..." exactly while loading, nothing without a session, the empty state for no proposals, otherwise one card per proposal in order |
| `Dashboard.Redirect` | app/dashboard/page.tsx:30-34 | only unauthenticated visitors are sent away, to sign in |
| `Dashboard.DashboardPage.constructor` | app/dashboard/page.tsx:27-28 | no proposals and nothing hidden |
| `Dashboard.DashboardPage.LoadProposals` | app/dashboard/page.tsx:42-52 | only an ok response replaces the listing; the hidden set is kept |
| `Dashboard.DashboardPage.ToggleProposalVisibility` | app/dashboard/page.tsx:54-62 | the hidden set becomes the toggled copy, and the listing is kept |

## Findings

| source | as written | input that shows it | evidently intended | confidence | as-written member | corrected member |
|---|---|---|---|---|---|---|
| lib/schemas.ts:33-36 | every non-empty company value goes to the CNPJ validator, including the page's "none" option (app/criar-conta/page.tsx:351). A rejected record never reaches the submit handler, so the "none" branch of the submit transform (app/criar-conta/page.tsx:78-79) cannot run | an employee record with company "none" and a validator that rejects "none" (a value with no digits is not a CNPJ) | "none" is read as no company, so the record passes and is sent as not employed with no company | medium (the validator is outside the model); not executed | `Schemas.NoneOptionRefused` | `Schemas.EmployeeIssuesIntended` |
| app/api/proposals/route.ts:36 | both handlers (here and at line 54) call `getServerSession()` without the authentication handler's options, so its `session` callback (app/api/auth/[...nextauth]/route.ts:58-64) does not run and the user has no id. Every listing filters on a missing id | user "2" signs in and lists proposals: the seeded proposals are missing, and a proposal another user posted is listed | each user lists only their own proposals, with the seeded ones for user "2" | medium (the library's default session is outside the model); not executed | `ProposalsApi.DefaultSessionsShareListing` | `ProposalsApi.ConfiguredSessionsSeparateListings` |
| app/propostas/page.tsx:31-37 | the redirect effect also runs while the session is still loading. There is no role yet, so the visitor is sent to `/dashboard` | status "loading" with no session data, as on an administrator's first render | wait until the session status is known, then send only non-administrators away | medium; not executed | `AdminProposals.AdminSentAwayWhileLoading` | `AdminProposals.Redirect` |

`SignUp.SubmitDataAccepted` and `SignUp.NoneChoiceIntended` prove the intended company rule together with the page's transform. `AdminProposals.AdminStays` proves that the intended redirect never sends an administrator away.

## Left out

- Currency formatting: `applyCurrencyMask` beyond telling blank from an amount (lib/masks.ts:24-28), and every `toLocaleString` call. They use floating-point division and the `Intl` library. `Masks.ApplyCurrencyMask` returns the amount in cents, not the text.
- Floating point: installment values (`amount / n`) are exact rationals, so rounding is not modelled. `parseInt` reads any digit string exactly here. JavaScript loses precision above 2^53, but such values exceed 9999999 either way, so the salary guard rejects them in both.
- String lengths: the name checks count characters; JavaScript counts UTF-16 code units, which differs for characters outside the Basic Multilingual Plane.
- The CPF, CNPJ and e-mail validators (lib/schemas.ts:1, 10-16, 25-26) come from libraries. They are uninterpreted function parameters.
- zod aborts an object's checks on a value of the wrong type (a salary that is not a number). The model's records are always well-typed, so only the check failures that let the other checks continue are modelled.
- Framework effects: `fetch` results, the session and the parsed request body are inputs. `alert` and `router.push` are returned as `Browser.Effect` values. `console.error` is dropped. The wizard's first "Voltar" (`router.back()`, app/nova-proposta/page.tsx:135) leaves the page and is not modelled.
- Effect scheduling: the redirect functions say where a render's effect navigates, not when React re-runs it (the wizard's effect does not list `session` among its dependencies).
- Clock values: the POST id (`Date.now()`), due date and creation time are parameters. Two POSTs in the same millisecond would get the same id; the model does not rule that out, as the source does not.
- `getServerSession` throwing, and the GET handler's 500 branch, are not modelled: nothing in the modelled GET can throw. A POST body that cannot be parsed is the 500 branch.
- `AdminProposals.AdminProposalsPage.UpdateProposalStatus` applies each update to the current list. The page maps the list captured when the handler was created, so two overlapping updates can lose one; concurrency is not modelled.
- `NewProposal.LoanWizard.SetAmount` requires a slider value (1000 to 12000 in steps of 1000). The slider component enforces that bound, and it is not part of this model. `NewProposal.LoanWizard.SelectInstallment` requires a count from 1 to 4, since the option buttons are its only callers.
- The plain registered inputs (names, e-mail) and their HTML `minLength`/`maxLength` attributes are not state of the model. They are passed in where a whole record is built.
- Both sign-up submit buttons are rendered `disabled` (app/criar-conta/page.tsx:226, 370). The model describes what the submit handlers do when they run.
- Dashboard cards: the open or closed state of each card's `Collapsible` (closed until its header is clicked) is not modelled; `Dashboard.CardView` says only whether the collapsible content exists.
- The admin proposals routes (a separate constant list behind a role check), the registration route, the sign-in page, the countdown page and the presentational components carry no logic worth modelling and are not part of this model. The status icons of the dashboard are presentation only.
