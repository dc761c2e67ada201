# SchoolSoft dashboard: a verified model of its client-side logic

SchoolSoft is a React front-end for running a school. Staff use it to record
fee payments, manage students, teachers, classes and user accounts, print
payment invoices and export class reports. Storage, authorisation and
aggregation all live behind an HTTP API. What the browser decides for itself
is the subject of this model:

- **List screens.** These are the payments, students and users tables and the
  class report. Each turns its table state (page, page size, column filters,
  global search, sorting) into the address it fetches. Each binds the
  response to the table and deletes a confirmed row from the local copy.
- **Modals.** These are the create and edit forms for payments, students,
  teachers, the school, users and classes. Each has a zod schema, the
  defaults it resets to, the values it derives and watches, and the request
  or PATCH it builds on submit.
- **Session.** The login page stores a session under `authObject`. The
  `useIsAuthenticated` hook reads it back. The sidebar drops it when it is
  about to expire or on sign-out, and shows the user's initials.
- **Invoice.** Looks up the paying student, the guardian, the balance and the
  class, falls back to fixed placeholders, fills a letterhead with defaults,
  builds the amount table, and guards generating and printing the PDF.
- **Dashboard cards.** One is the payment-modes pie: loader, chart or "No
  data available", slice labels and colour cycling. The other is the
  password-gated "Database Actions" card.

## Layout

| file | module | what it holds |
|---|---|---|
| `js.dfy` | `Js` | JavaScript values: truthiness, `??`, `===`, optional property access, `find`, `Number(...)` and `${...}` on the values the components handle, and `Outcome` for an expression that may throw |
| `phone.dfy` | `Phone` | the phone pattern `^(\+?\d{2,3})?0?\d{9}$` as a recogniser, proved equal to the regular expression's language |
| `validation.dfy` | `Validation` | zod schemas as per-field rules and one `Validate`; react-hook-form's store (`FormStore`); `??` defaults from a record; the `{ id, ...rest }` split and the PATCH it produces |
| `url.dfy` | `Url` | `URLSearchParams.set` on an ordered parameter list, and a `URL` object updated in place (`FetchUrl`) |
| `list_pages.dfy` | `ListPages` | the list screens' request building, query keys, envelope bindings, pager, status cell and delete dialog (`ListPage`) |
| `class_report.dfy` | `ClassReport` | the class report's request, class selection, refetch gating, cache key and CSV export (`ReportPage`) |
| `payment_forms.dfy`, `student_form.dfy`, `teacher_forms.dfy`, `school_form.dfy`, `user_forms.dfy`, `class_forms.dfy` | one per entity | each modal's schema, defaults and request; the payment modals as classes over a `FormStore` |
| `invoice.dfy` | `Invoice` | the four lookups, letterhead, amount table, and the invoice view's state (`InvoiceView`) |
| `local_storage.dfy`, `login.dfy`, `aside.dfy`, `session.dfy` | `LocalStorage`, `Login`, `Aside`, `Session` | the storage map, the hook, login, expiry and sign-out, and lemmas across all of them |
| `payment_modes.dfy`, `database_actions.dfy` | `PaymentModes`, `DatabaseActions` | the two dashboard cards |

Environment variables (`REACT_APP_BASE_URL`), the clock (`Date.now()`), the
blob URL of a generated PDF and the outcome of each HTTP call are
parameters. The email check of zod's `.email()` is a parameter `isEmail`.

## Model

| member | source | states |
|---|---|---|
| Js.Coalesce | src/Components/Invoice.jsx:159-169 | `v ?? d` is `d` exactly when `v` is null or undefined, and `v` otherwise |
| Js.FindBy | src/Components/Invoice.jsx:58-74 | `find` by a property returns the first index whose property is strictly equal to the target; no earlier element matches; `None` means no element matches |
| Js.Find | src/Components/modals/PaymentCreate.jsx:102-110 | `list?.find(...)` finds something exactly when the list is loaded and some element matches; what it finds is a matching element of the list |
| Js.StringToNumberOfIntToString | src/Components/modals/StudentCreate.jsx:109-115 | `Number` of a rendered integer gives the integer back |
| Js.NumberOfRenderedInt | src/Components/modals/ClassCreate.jsx:71-79 | `Number(`${n}`)` is `n` for every integer value, so coercing an id that went through a select gives the id |
| Js.DigitsValueOfNatToString | src/Components/modals/StudentCreate.jsx:113 | the decimal rendering of a natural number reads back as that number |
| Phone.PatternImpliesIsPhone | src/Components/modals/StudentCreate.jsx:36-38 | every string in the language of the phone pattern is accepted by the recogniser |
| Phone.IsPhoneImpliesPattern | src/Components/modals/TeacherCreate.jsx:20-22 | every string the recogniser accepts splits into optional `+`, 2 or 3 digits, an optional `0` and exactly 9 digits |
| Phone.IsPhoneCorrect | src/Components/modals/SchoolUpdate.jsx:22-27 | the recogniser accepts a string if and only if it matches the phone pattern |
| Phone.PlaceholderIsPhone | src/Components/modals/StudentCreate.jsx:338 | the placeholder "0700000000" passes the phone rule |
| Phone.InternationalWithTrunkZero | src/Components/modals/TeacherUpdate.jsx:24 | a country code followed by a trunk `0` and nine digits (`+2540712345678`) is accepted |
| Validation.Validate | src/Components/modals/PaymentCreate.jsx:18-26 | a form parses if and only if every field passes its rule; the parsed data is the form restricted to the schema's fields; a failure names exactly the failing fields and at least one |
| Validation.Check | src/Components/modals/StudentCreate.jsx:28-45 | a required rule never accepts a missing field, no rule accepts null, and no rule accepts NaN: only `.optional()` admits undefined |
| Validation.ValidateIgnoresOthers | src/Components/modals/StudentCreate.jsx:28-45 | a key the schema does not mention changes neither the verdict nor the data |
| Validation.FormStore.constructor | src/Components/modals/PaymentCreate.jsx:28-37 | a new form store holds no values |
| Validation.FormStore.Reset | src/Components/modals/PaymentCreate.jsx:42-50 | `reset(defaults)` replaces every value with the defaults |
| Validation.FormStore.SetValue | src/Components/modals/PaymentCreate.jsx:108 | `setValue(name, v)` changes that one field and keeps every other |
| Validation.FormStore.Watch | src/Components/modals/PaymentCreate.jsx:98-99 | watching a field that was never set gives undefined |
| Validation.DefaultsFrom | src/Components/modals/PaymentUpdate.jsx:34-44 | `reset` from a record keeps the fallbacks' fields; each takes the record's value when it is present and not null, and the fallback otherwise |
| Validation.WatchedNumber | src/Components/modals/ClassUpdate.jsx:78-86 | `Number(watch(k) ?? '0')` is a number; a missing field gives 0; an integer or its rendering gives that integer |
| Validation.ResubmitUnchanged | src/Components/modals/TeacherUpdate.jsx:39-46 | resetting from a complete, valid record and saving unchanged validates to exactly that record's schema fields |
| Validation.SplitId | src/Components/modals/UserUpdate.jsx:70-76 | `{ id, ...postData }` puts every field except `id` in the body, with its value, and the rendered id at the end of the path |
| Validation.SplitIdRoundTrip | src/Components/modals/SchoolUpdate.jsx:66-72 | putting the id back into the body gives the submitted data again |
| Validation.SplitIdPath | src/Components/modals/TeacherUpdate.jsx:49-54 | for an integer id the path ends in its decimal rendering, which reads back as the id |
| Validation.SubmitPatch | src/Components/modals/SchoolUpdate.jsx:66-72 | a PATCH is sent exactly when the form validates; its body holds the form's schema fields except `id`, with the form's values; its path is the prefix and the rendered id (or `undefined` when the schema has no id) |
| Validation.ResubmitPatch | src/Components/modals/UserUpdate.jsx:59-76 | saving a reset, untouched, valid record sends that record minus `id` to the prefix and the record's id |
| Validation.BlankFallbacks | src/Components/modals/SchoolUpdate.jsx:49-63 | the update modals' fallbacks: 0 for `id` and the empty string for every other schema field |
| Url.Lookup | src/Pages/Payment.jsx:137-151 | `searchParams.get(name)` finds nothing exactly when no parameter has that name |
| Url.Without | src/Pages/Payment.jsx:137-151 | removing a name leaves no parameter of that name and never adds one |
| Url.WithoutEntries | src/Pages/Payment.jsx:137-143 | removing a name never invents an entry: everything left was there before |
| Url.SetParam | src/Pages/Payment.jsx:137-143 | `set` never leaves the parameters empty, adds at most one entry, and keeps a leading entry of another name in front |
| Url.SetParamEntries | src/Pages/Payment.jsx:137-143 | after `set(name, v)` every entry of that name is `(name, v)`, and every entry of another name was already there |
| Url.LookupWithout | src/Pages/Payment.jsx:137-151 | removing one name does not change what another name reads |
| Url.LookupSetSame | src/Pages/Payment.jsx:137-151 | after `set(name, v)` the name reads `v` |
| Url.LookupSetOther | src/Pages/Payment.jsx:137-151 | `set(name, v)` does not change what any other name reads |
| Url.SetFreshAppends | src/Pages/Payment.jsx:137-151 | setting a name not yet present appends it at the end, keeping the order of the others |
| Url.FetchUrl.constructor | src/Pages/Payment.jsx:135 | `new URL(base + path)` has the origin, the full path and no parameters |
| Url.FetchUrl.Set | src/Pages/Payment.jsx:137-143 | `searchParams.set` updates the parameters and leaves origin and path alone |
| Url.FetchUrl.SetPathname | src/Pages/Payment.jsx:147-149 | assigning `pathname` replaces the path and keeps origin and parameters |
| ListPages.ListRequest | src/Pages/Payment.jsx:134-151 | the address a list screen fetches: the list path, or the search path with the term when a non-empty search is set; parameters page (`start = pageIndex * pageSize`, or `page = pageIndex + 1`), `size`, the filters and the sorting (`[]` when absent), in that order |
| ListPages.BuildListUrl | src/Pages/Student.jsx:78-90 | the step-by-step URL building of `queryFn` ends with exactly the address `ListRequest` describes |
| ListPages.SearchKeepsQuery | src/Pages/User.jsx:73-89 | searching moves the request to `/search/<term>` and keeps every parameter the list sent |
| ListPages.ClearedSearchListsAll | src/Pages/Payment.jsx:147-149 | with no or an empty search the request goes to the list path |
| ListPages.PageParamReadsBack | src/Pages/Payment.jsx:137-143 | the page parameter reads back as `pageIndex * pageSize` under `start`, or as `pageIndex + 1` under `page` |
| ListPages.KeyOf | src/Pages/Payment.jsx:120-132 | the query key holds the list's name and the whole table state, which reads back from the key |
| ListPages.KeyDeterminesRequest | src/Pages/Payment.jsx:119-132 | two table states share a query key exactly when they are equal, and then they fetch the same address, so the cache never answers one query with another's data |
| ListPages.RowCount | src/Pages/Payment.jsx:405 | the row count is never nullish: `itemsPerPage` when the response has it, 0 otherwise |
| ListPages.PageCount | src/Pages/Student.jsx:388 | the pager's count is `totalPages` when present, 0 otherwise |
| ListPages.OnPagerChange | src/Pages/Payment.jsx:471-478 | choosing page `v` makes the pager show `v` and keeps the page size |
| ListPages.PagerIdempotent | src/Pages/Student.jsx:388-395 | choosing the page already shown leaves the pagination unchanged |
| ListPages.StatusLabel | src/Pages/User.jsx:128-142 | the status reads "Active" exactly when `activeStatus` is truthy and "Out Of Office" exactly when it is not |
| ListPages.RemoveAt | src/Pages/Payment.jsx:254 | `splice(i, 1)` removes exactly the element at `i` (one fewer element, same multiset minus it), keeps the others in order, and changes nothing past the end |
| ListPages.ListPage.constructor | src/Pages/Payment.jsx:62-76 | a list screen starts at the initial table state with no rows and no pending delete |
| ListPages.ListPage.OnData | src/Pages/Payment.jsx:162-164 | a response sets the rows to its `items`; no response leaves them alone; nothing else changes |
| ListPages.ListPage.ChangePage | src/Pages/Payment.jsx:471-478 | the pager updates only the pagination, as `OnPagerChange` |
| ListPages.ListPage.HandleDeleteRow | src/Pages/User.jsx:163-166 | the delete button opens the dialog and remembers the row |
| ListPages.ListPage.HandleCloseConfirmDialog | src/Pages/Student.jsx:181-183 | cancelling closes the dialog and keeps the pending row and the rows |
| ListPages.ListPage.HandleConfirmDelete | src/Pages/Payment.jsx:251-258 | with no pending row nothing is deleted and the dialog closes; with one, a DELETE goes to the row's id and exactly that row is spliced out, or, with no rows loaded, the splice throws and the dialog stays |
| ClassReport.HandleChange | src/Pages/Reports/ClassReport.jsx:36-38 | choosing an option selects it; choosing the empty option selects null, the only falsy choice |
| ClassReport.ReportRequest | src/Pages/Reports/ClassReport.jsx:69-82 | the report always fetches `/class/<grade>/students`, never a search path, with `page = pageIndex + 1`, `size`, filters, `globalFilter` (`''` when absent) and sorting |
| ClassReport.ReportParamsInOrder | src/Pages/Reports/ClassReport.jsx:74-82 | setting the five report parameters on an empty query lists them in the order they were set |
| ClassReport.BuildReportUrl | src/Pages/Reports/ClassReport.jsx:69-82 | the step-by-step URL building ends with exactly `ReportRequest` |
| ClassReport.SearchStaysInClass | src/Pages/Reports/ClassReport.jsx:80 | searching keeps the class path and sends the term as `globalFilter` |
| ClassReport.KeyAsWritten | src/Pages/Reports/ClassReport.jsx:55-67 | as written, the key is "class-data" and the table state, which reads back from it; the grade is not in it |
| ClassReport.KeyAsWrittenCollides | src/Pages/Reports/ClassReport.jsx:55-67 | as written, classes 1 and 2 share one cache key although they fetch different addresses |
| ClassReport.KeyOf | src/Pages/Reports/ClassReport.jsx:55-72 | the corrected key holds the grade, the name "class-data" and the table state, all of which read back from it |
| ClassReport.KeyDeterminesRequest | src/Pages/Reports/ClassReport.jsx:55-72 | with the grade in the key, two states share a key exactly when grade and table state are equal, and equal keys mean equal requests |
| ClassReport.FetchesUndefinedClass | src/Pages/Reports/ClassReport.jsx:35-82 | as written, the query on mount fetches `/class/undefined/students`; once the empty option has set the grade to null, the next fetch the query makes (a key change, the refresh button or a refocus) goes to `/class/null/students` |
| ClassReport.GatedReportRequest | src/Pages/Reports/ClassReport.jsx:97-101 | the query runs only when a class is selected, and then fetches `ReportRequest` |
| ClassReport.GatedFetchNamesChosenClass | src/Pages/Reports/ClassReport.jsx:243-249 | gated, a fetch happens exactly when a non-empty option is chosen, and its path names that option |
| ClassReport.ReportPage.constructor | src/Pages/Reports/ClassReport.jsx:35 | the report starts with no class selected and the initial table state |
| ClassReport.ReportPage.Query | src/Pages/Reports/ClassReport.jsx:69-101 | (corrected, see Findings) the page sends a request exactly when a class is selected, and it goes to that class's path |
| ClassReport.ReportPage.Key | src/Pages/Reports/ClassReport.jsx:55-67 | the page's corrected key holds the selected grade and the current table state |
| ClassReport.ReportPage.ChooseClass | src/Pages/Reports/ClassReport.jsx:36-38 | the select records the choice and refetches exactly when it is not the empty option |
| ClassReport.StudentName | src/Pages/Reports/ClassReport.jsx:189 | the student name is the first name, a space and the last name |
| ClassReport.TransformItem | src/Pages/Reports/ClassReport.jsx:184-197 | a row throws exactly when the student has no `Class`; otherwise it has the seven export columns in order: id, guardian name, guardian phone, fee total and fee balance copied unchanged, the full name, and the class's name |
| ClassReport.TransformAll | src/Pages/Reports/ClassReport.jsx:184-197 | the export succeeds exactly when every student has a class; it keeps the length and order, row by row |
| ClassReport.TransformDataForCsv | src/Pages/Reports/ClassReport.jsx:184-197 | no items give no rows; the export throws exactly when some student has no class; otherwise there is one row per student, in order |
| ClassReport.HandleExportData | src/Pages/Reports/ClassReport.jsx:199-206 | export does nothing but log without data; a CSV carries the column headers |
| ClassReport.ExportColumnsAlign | src/Pages/Reports/ClassReport.jsx:171 | every exported row has as many cells as there are headers; the fifth header says "Class" while the row key says "Grade" |
| ClassReport.ExportThrowsOnClasslessStudent | src/Pages/Reports/ClassReport.jsx:192 | one student without a class makes the whole export throw |
| PaymentForms.SelectedStudent | src/Components/modals/PaymentCreate.jsx:102-110 | no student is selected exactly when the list is not loaded or no student's id is `Number(studentId)`; otherwise it is the first student with that id, which is truthy |
| PaymentForms.FeeAmountDue | src/Components/modals/PaymentCreate.jsx:112-120 | the amount due is undefined before the list loads or with no matching student, and otherwise the first matching student's `feeBalance` |
| PaymentForms.AmountDueOfChosenStudent | src/Components/modals/PaymentCreate.jsx:98-120 | with distinct ids, choosing student `n` in the select (which holds `"n"`) shows that student's balance |
| PaymentForms.AmountDueDisplay | src/Components/modals/PaymentCreate.jsx:226-234 | the amount due shows "KES 0.00" exactly when it is falsy, and the amount itself otherwise |
| PaymentForms.CreateValidIff | src/Components/modals/PaymentCreate.jsx:18-26 | a new payment validates exactly when class, student and reference are non-empty, the amount is a number at least 0, and the mode is MPESA, CASH, BANK or CHEQUE |
| PaymentForms.CreateDefaultsRejected | src/Components/modals/PaymentCreate.jsx:42-50 | the blank form fails on class, student, amount and reference, and not on the mode |
| PaymentForms.BadAmountRejected | src/Components/modals/PaymentCreate.jsx:21 | a negative or NaN amount always fails, on `amount` |
| PaymentForms.CreateSyncClass | src/Components/modals/PaymentCreate.jsx:102-110 | with no matching student the form is left as it was; with one, `classId` becomes the student's `classId` rendered as a string and nothing else changes |
| PaymentForms.CreateRequest | src/Components/modals/PaymentCreate.jsx:123-130 | the request is the parsed data with every other field as parsed, and `classId` and `studentId` set to `Number(watch(..) ?? '0')` of the form |
| PaymentForms.CreateRequestOmitsAmountDue | src/Components/modals/PaymentCreate.jsx:112-130 | the displayed amount due never reaches the request: it holds only the five schema fields |
| PaymentForms.SubmittedClassIsStudentsClass | src/Components/modals/PaymentCreate.jsx:102-130 | after selecting a student, the request's class is that student's class |
| PaymentForms.CreateModal.constructor | src/Components/modals/PaymentCreate.jsx:17 | the modal starts with an empty form and the radio state "Cash" |
| PaymentForms.CreateModal.ResetForm | src/Components/modals/PaymentCreate.jsx:42-50 | opening resets the form to the blank defaults with MPESA |
| PaymentForms.CreateModal.OnStudentChange | src/Components/modals/PaymentCreate.jsx:102-110 | selecting a student writes the class as `CreateSyncClass` says |
| PaymentForms.CreateModal.ChooseMode | src/Components/modals/PaymentCreate.jsx:246-325 | a radio sets both the highlighted mode and `payment_mode` to exactly that mode |
| PaymentForms.CreateModal.EnterAmount | src/Components/modals/PaymentCreate.jsx:357 | typing an amount stores its `valueAsNumber` |
| PaymentForms.CreateModal.Submit | src/Components/modals/PaymentCreate.jsx:123-130 | submit posts exactly when the form validates, and posts `CreateRequest` of the parsed data |
| PaymentForms.InitialModeHighlightsNone | src/Components/modals/PaymentCreate.jsx:17 | the form starts on MPESA while the radio state "Cash" matches none of the four modes |
| PaymentForms.UpdateValidIff | src/Components/modals/PaymentUpdate.jsx:18 | the edit form validates exactly when `id` is absent or a number |
| PaymentForms.UpdateDefaults | src/Components/modals/PaymentUpdate.jsx:34-44 | the edit form holds the six payment fields, each the payment's value when present and not null, else its fallback |
| PaymentForms.UpdateRequest | src/Components/modals/PaymentUpdate.jsx:95-133 | the edit request has the six payment fields: id, reference and mode with their fallbacks, and class, student and amount as `Number(watch(..) ?? ..)` of the form |
| PaymentForms.UpdatePatch | src/Components/modals/PaymentUpdate.jsx:75-82 | the PATCH goes to `/fee-payments/<id>` (0 when the form has none) with the five other fields: class, student and amount as `Number(watch(..) ?? ..)`, reference and mode with their fallbacks `''` and MPESA |
| PaymentForms.UntouchedUpdateResubmits | src/Components/modals/PaymentUpdate.jsx:34-82 | saving an untouched payment patches `/fee-payments/<id>` with exactly its own five other fields |
| PaymentForms.UpdateSyncClass | src/Components/modals/PaymentUpdate.jsx:103-111 | with no matching student the form is left as it was; with one, `classId` becomes the student's `classId` as it is and nothing else changes |
| PaymentForms.UpdateSubmitsStudentsClass | src/Components/modals/PaymentUpdate.jsx:103-133 | after selecting a student, the edit sends that student's class as a number |
| PaymentForms.UpdateModal.constructor | src/Components/modals/PaymentUpdate.jsx:17-30 | the modal starts with an empty form and the radio state "Cash" |
| PaymentForms.UpdateModal.ResetFrom | src/Components/modals/PaymentUpdate.jsx:34-44 | opening resets the form from the payment with its fallbacks |
| PaymentForms.UpdateModal.OnStudentChange | src/Components/modals/PaymentUpdate.jsx:103-111 | selecting a student writes the class as `UpdateSyncClass` says |
| PaymentForms.UpdateModal.ChooseMode | src/Components/modals/PaymentUpdate.jsx:250-330 | a radio sets both the highlighted mode and `payment_mode` to exactly that mode |
| PaymentForms.UpdateModal.Submit | src/Components/modals/PaymentUpdate.jsx:123-133 | submit patches exactly when the form validates, and sends `UpdateRequest` split on its id |
| StudentForm.CreateRequest | src/Components/modals/StudentCreate.jsx:109-115 | a student is posted exactly when the form validates, with the parsed fields unchanged plus a `classId` |
| StudentForm.CreateValidIff | src/Components/modals/StudentCreate.jsx:28-45 | valid exactly when names and guardian name have at least 2 characters, dob is a date, the fee is at least 0, the phone matches and gender is MALE or FEMALE |
| StudentForm.CreateDefaultsRejected | src/Components/modals/StudentCreate.jsx:60-71 | the reset form fails on the names, dob, guardian name and phone, and not on gender or fee |
| StudentForm.ClassNotValidated | src/Components/modals/StudentCreate.jsx:28-45 | the schema never looks at `classId`; with no class chosen the student is posted with class 0 |
| StudentForm.SelectedClassSubmitted | src/Components/modals/StudentCreate.jsx:113 | a class chosen in the select is posted as its number |
| TeacherForms.CreateRequest | src/Components/modals/TeacherCreate.jsx:61-63 | a teacher is posted exactly when the form validates, with the names and phone unchanged |
| TeacherForms.CreateNames | src/Components/modals/TeacherCreate.jsx:17-23 | the schema covers first name, last name and phone |
| TeacherForms.CreateValidIff | src/Components/modals/TeacherCreate.jsx:17-23 | valid exactly when both names have at least 2 characters and the phone matches |
| TeacherForms.CreateDefaultsRejected | src/Components/modals/TeacherCreate.jsx:37-44 | the blank form fails on all three fields |
| TeacherForms.UpdateNames | src/Components/modals/TeacherUpdate.jsx:18-25 | the edit schema covers id, both names and the phone |
| TeacherForms.UpdateSubmit | src/Components/modals/TeacherUpdate.jsx:39-54 | an edit is sent exactly when the form validates, to `/teacher/<id>`, with the form's names and phone as they are |
| TeacherForms.UpdateValidIff | src/Components/modals/TeacherUpdate.jsx:18-25 | an edit is sent exactly when `id` is absent or a number, both names have 2 characters and the phone matches |
| TeacherForms.UntouchedUpdate | src/Components/modals/TeacherUpdate.jsx:39-54 | saving an untouched valid teacher patches `/teacher/<id>` with its own fields minus the id |
| SchoolForm.UpdateNames | src/Components/modals/SchoolUpdate.jsx:18-35 | the edit schema covers the id and the eleven contact and payment fields |
| SchoolForm.UpdateSubmit | src/Components/modals/SchoolUpdate.jsx:66-72 | an edit is sent exactly when the form validates, to `/school/update/<id>`, with the form's eleven other schema fields as they are |
| SchoolForm.MissingPaymentDetailsAccepted | src/Components/modals/SchoolUpdate.jsx:29-31 | missing M-Pesa and bank details reset to `''` and pass their optional rules |
| SchoolForm.UntouchedUpdate | src/Components/modals/SchoolUpdate.jsx:49-72 | saving an untouched valid school patches `/school/update/<id>` with its own fields minus the id |
| UserForms.CreateRequest | src/Components/modals/UserCreate.jsx:33-43 | a user is posted exactly when the form validates, with its schema fields unchanged |
| UserForms.CreateNames | src/Components/modals/UserCreate.jsx:33-43 | the schema covers name, password, email, role and status |
| UserForms.CreateDefaultsRejected | src/Components/modals/UserCreate.jsx:56-66 | the blank form fails on name, password and email, and not on role or status |
| UserForms.UpdateNames | src/Components/modals/UserUpdate.jsx:35-46 | the edit schema covers id, name, email, role and status: no password |
| UserForms.UpdateSubmit | src/Components/modals/UserUpdate.jsx:59-76 | an edit is sent exactly when the form validates, to `/user/<id>`, with the form's name, email, role and status as they are |
| UserForms.UpdateNeverSendsPassword | src/Components/modals/UserUpdate.jsx:35-76 | whatever the form holds, an edit never sends a password |
| UserForms.UntouchedUpdate | src/Components/modals/UserUpdate.jsx:59-76 | saving an untouched valid user patches `/user/<id>` with its own fields minus the id |
| ClassForms.CreateRequest | src/Components/modals/ClassCreate.jsx:73-79 | a class is posted exactly when its name has at least 2 characters, with the name and the watched teacher as a number |
| ClassForms.CreateDefaultsRejected | src/Components/modals/ClassCreate.jsx:33-37 | the blank form fails on the name only |
| ClassForms.TeacherSubmitted | src/Components/modals/ClassCreate.jsx:71-79 | a class with no teacher is posted with teacher 0; a chosen teacher is posted as its number |
| ClassForms.UpdateSubmit | src/Components/modals/ClassUpdate.jsx:58-86 | an edit is sent exactly when the name has 2 characters and `id` is absent or a number, to `/class/<id>`, with the name and the teacher as a number |
| ClassForms.UntouchedUpdate | src/Components/modals/ClassUpdate.jsx:35-64 | saving an untouched class patches `/class/<id>` with its name and teacher |
| Invoice.Resolve | src/Components/Invoice.jsx:58-128 | a lookup is undefined before the list loads, the placeholder when nothing matches, and the projection of the first match (or the placeholder when that match is falsy) |
| Invoice.FullName | src/Components/Invoice.jsx:66 | the full name is the rendered first name, one space, and the rendered last name |
| Invoice.StudentName | src/Components/Invoice.jsx:58-74 | the invoice names the first student with the payment's `studentId`, "Student not found" without one, nothing before the list loads |
| Invoice.GuardianName | src/Components/Invoice.jsx:76-92 | the matched student's `guardianName`, else "Guardian not found" |
| Invoice.StudentBalance | src/Components/Invoice.jsx:94-110 | the matched student's `feeBalance`, 0 when that is null, else "Balance not found" |
| Invoice.ClassName | src/Components/Invoice.jsx:112-128 | the name of the class matched on the payment's `classId`, else "Class not found" |
| Js.UniqueMatchIsFirst | src/Components/Invoice.jsx:58-128 | with distinct ids, the record carrying the id is the one `find` returns |
| Invoice.InvoiceNamesPayingStudent | src/Components/Invoice.jsx:58-110 | with distinct ids, the invoice shows the paying student's name, guardian and balance |
| Invoice.InvoiceNamesPaymentClass | src/Components/Invoice.jsx:112-128 | with distinct ids, the invoice shows the payment's class |
| Invoice.Letterhead | src/Components/Invoice.jsx:159-169 | each of the ten school fields is the school's value when present, else "SchoolSoft" for the name and `''` for the rest |
| Invoice.LetterheadWithoutSchool | src/Components/Invoice.jsx:159-169 | before the school loads, the letterhead reads "SchoolSoft" and is otherwise blank |
| Invoice.Amounts | src/Components/Invoice.jsx:233-246 | the table has exactly the rows "Amount Paid" (amount, 0 when null) and "Total Balance Due", and the footer "Paid Total" |
| Invoice.Formatted | src/Components/Invoice.jsx:233-246 | the formatter prints NaN for undefined, 0 for null, and an integer or its decimal string as that integer |
| Invoice.FooterMatchesAmountPaid | src/Components/Invoice.jsx:236-246 | the footer agrees with the "Amount Paid" row exactly when the payment has an amount |
| Invoice.DocumentFor | src/Components/Invoice.jsx:155-269 | the generated invoice carries the letterhead, the looked-up names, the amount table, the payment mode and the staff name |
| Invoice.InvoiceView.constructor | src/Components/Invoice.jsx:22-23 | the view starts with the preview shown and no document URL |
| Invoice.InvoiceView.GeneratePdf | src/Components/Invoice.jsx:155-156 | without a payment nothing changes; with one, the URL, preview and document are set |
| Invoice.InvoiceView.PrintPdf | src/Components/Invoice.jsx:287-288 | printing does nothing exactly when there is no document URL, and otherwise prints that URL |
| Invoice.GenerateThenPrint | src/Components/Invoice.jsx:155-317 | nothing prints before a document is generated; afterwards the generated document prints exactly when there was a payment |
| LocalStorage.Storage.constructor | src/utils/hooks/localstorage.ts:3 | the storage holds the given items |
| LocalStorage.Storage.SetItem | src/Pages/Login.jsx:46-48 | `setItem` stores the serialised object under the key and keeps the others |
| LocalStorage.Storage.RemoveItem | src/Components/aside.jsx:37 | `removeItem` drops exactly that key |
| LocalStorage.LoadData | src/utils/hooks/localstorage.ts:5-14 | `loadData` is null when `authObject` is absent or empty, and the stored object otherwise |
| LocalStorage.And | src/utils/hooks/localstorage.ts:28-34 | `a && b` is `a` when `a` is falsy and `b` otherwise |
| LocalStorage.Project | src/utils/hooks/localstorage.ts:28-34 | with no session every field is falsy and `isAuthenticated` is the empty session itself; with a stored object each field is that object's same-named field |
| LocalStorage.NoSessionProjectsFalsy | src/utils/hooks/localstorage.ts:28-34 | with no session every projected field is falsy |
| LocalStorage.StoredSessionProjectsFields | src/utils/hooks/localstorage.ts:28-34 | with a stored session each field is the same-named field of the stored object |
| LocalStorage.AuthHook.constructor | src/utils/hooks/localstorage.ts:17-18 | the hook starts with no session and loading |
| LocalStorage.AuthHook.Load | src/utils/hooks/localstorage.ts:20-25 | the load sets the session from storage and then stops loading |
| LocalStorage.MountHook | src/utils/hooks/localstorage.ts:16-34 | before the load completes the hook is loading and reports every field falsy |
| Login.LoginValidIff | src/Pages/Login.jsx:27-30 | the login form validates exactly when the email is an email and the password a string |
| Login.SessionFor | src/Pages/Login.jsx:57-67 | the session is authenticated, expires one hour after login, and carries the response's token, role, user id, name and email |
| Login.LandingRoute | src/Pages/Login.jsx:72-76 | every role lands on "dashboard" |
| Login.LoginPage.constructor | src/Pages/Login.jsx:24-25 | the page starts with no toast |
| Login.LoginPage.OnSuccess | src/Pages/Login.jsx:54-79 | a login stores the session under `authObject`, shows the success toast and goes to "dashboard" |
| Login.LoginPage.OnError | src/Pages/Login.jsx:80-82 | a failed login only shows the error toast |
| Aside.Split | src/Components/aside.jsx:25 | `split(' ')` gives at least one piece and no piece contains a space |
| Aside.JoinSplit | src/Components/aside.jsx:25 | joining the pieces with spaces gives the name back |
| Aside.FirstCharsSplit | src/Components/aside.jsx:24-27 | the first characters of the pieces are exactly the characters that start a word |
| Aside.Initials | src/Components/aside.jsx:24-27 | the initials are the word starts of the name, undefined without a name, and throw for a non-string name |
| Aside.WordStartsAt | src/Components/aside.jsx:24-27 | every non-space character after a space, or at the start, is among the initials |
| Aside.WordStartsFromName | src/Components/aside.jsx:24-27 | every initial is a non-space character of the name |
| Aside.Expiring | src/Components/aside.jsx:32-39 | only an authenticated session with a truthy expiry can expire; for an integer expiry `t` it does exactly when `t < now + 10000` |
| Aside.ExpiryEffect | src/Components/aside.jsx:29-46 | when authenticated with fewer than 10 000 ms left the session is removed and the user sent to `/`; otherwise storage is untouched |
| Aside.SignOutUser | src/Components/aside.jsx:48-53 | sign-out always removes the session and goes to `/` |
| Session.LoggedInView | src/Pages/Login.jsx:57-67 | right after login the hook reports the response's fields and an expiry one hour on |
| Session.SessionExpiresBeforeTheHour | src/Components/aside.jsx:32-39 | a fresh session is dropped exactly when the sidebar checks more than 3 590 000 ms after login |
| Session.SignedOutAfterRemoval | src/Components/aside.jsx:48-53 | after sign-out or expiry the hook reports every field falsy |
| Session.LoginCheckReload | src/Pages/Login.jsx:54-79 | log in, load, check at time `t`, load again: signed out after the margin, unchanged before it |
| DatabaseActions.Endpoint | src/Components/Cards/DatabaseActions.tsx:34-89 | exactly the actions partial, reservations and reset have a reset, each its own endpoint |
| DatabaseActions.Title | src/Components/Cards/DatabaseActions.tsx:125-131 | the title is "Partial Reset Database", "Reset Sales Data" or "Reset Database" by action |
| DatabaseActions.DatabaseActionsCard.constructor | src/Components/Cards/DatabaseActions.tsx:17-23 | the card starts closed, with no password, action or message |
| DatabaseActions.DatabaseActionsCard.OpenDialog | src/Components/Cards/DatabaseActions.tsx:25-28 | opening records the action and opens the dialog |
| DatabaseActions.DatabaseActionsCard.TypePassword | src/Components/Cards/DatabaseActions.tsx:145-146 | typing sets the password field only |
| DatabaseActions.DatabaseActionsCard.CloseDialog | src/Components/Cards/DatabaseActions.tsx:30-32 | cancel closes the dialog and runs nothing |
| DatabaseActions.DatabaseActionsCard.Confirm | src/Components/Cards/DatabaseActions.tsx:34-46 | a reset runs exactly when the password is `_password` and the action is partial, reservations or reset, and it is that action's reset; the dialog always closes |
| DatabaseActions.DatabaseActionsCard.OnSettled | src/Components/Cards/DatabaseActions.tsx:48-89 | the message is the response text, or "Error resetting the database" on failure |
| DatabaseActions.PickTypeConfirm | src/Components/Cards/DatabaseActions.tsx:25-46 | from a fresh card, pick, type and confirm sends the chosen reset exactly with the right password |
| DatabaseActions.ConfirmTwice | src/Components/Cards/DatabaseActions.tsx:34-46 | the password stays in the field, so a second action is confirmed without retyping |
| PaymentModes.Every0Iff | src/Components/Cards/PaymentModes.tsx:35 | `every(value === 0)` holds exactly when all totals are 0 |
| PaymentModes.Label | src/Components/Cards/PaymentModes.tsx:47-50 | a slice has no label exactly when its value is 0, and otherwise shows its name and amount |
| PaymentModes.SliceAt | src/Components/Cards/PaymentModes.tsx:54-58 | slice `i` keeps its mode's name and value and takes colour `COLORS[i % 6]` |
| PaymentModes.Slices | src/Components/Cards/PaymentModes.tsx:54-58 | one slice per mode, in order |
| PaymentModes.Show | src/Components/Cards/PaymentModes.tsx:29-35 | while loading the loader shows, whatever the data; a chart shows the slices of the given modes |
| PaymentModes.ChartIff | src/Components/Cards/PaymentModes.tsx:33-74 | the chart is drawn exactly when not loading and some mode is non-zero; "No data available" exactly when not loading and the list is missing or all zero |
| PaymentModes.SlicesLabelledAndCycled | src/Components/Cards/PaymentModes.tsx:16-23 | colours repeat every six slices, and a slice is labelled exactly when its value is non-zero |

## Findings

| source | as written | input that shows it | evidently intended | confidence | as-written member | corrected member |
|---|---|---|---|---|---|---|
| src/Pages/Reports/ClassReport.jsx:55-67 | the query key holds the table state but not `selectedGrade`, so the cache entry for one class also stands for every other class | the same table state with class "1" and then class "2": one key, two addresses (`/class/1/students`, `/class/2/students`); the one shared cache entry keeps showing the first class's rows after the second is chosen, until the refetch the effect at lines 97-101 starts lands | the grade is part of the key, so equal keys fetch equal addresses | not executed | ClassReport.KeyAsWrittenCollides | ClassReport.KeyDeterminesRequest |
| src/Pages/Reports/ClassReport.jsx:69-72 | the query has no `enabled` option, so it runs with whatever `selectedGrade` holds; the effect at lines 97-101 only adds refetches for a chosen class | on mount `selectedGrade` is undefined and the query fetches `/class/undefined/students`; choosing the empty option sets it to null, which fetches nothing by itself, but the next fetch (a key change, the refresh button at line 311, a window refocus) goes to `/class/null/students` | fetch only when a class is selected (`enabled: !!selectedGrade`), and then the chosen class | not executed | ClassReport.FetchesUndefinedClass | ClassReport.GatedFetchNamesChosenClass |

`ClassReport.ReportPage`, the report's state, queries through the corrected
`ClassReport.GatedReportRequest` and keys its cache with the corrected
`ClassReport.KeyOf`.

## Left out

- HTTP traffic and caching: axios and `fetch` calls, react-query's cache, `cacheTime`, `invalidateQueries` and `keepPreviousData`. Responses are inputs, and requests are values the model returns.
- The race between overlapping list fetches: this is concurrency, and the code does nothing about it.
- PDF drawing and printing: jsPDF, `autoTable`, `URL.createObjectURL`, `window.open` and the print iframe. The blob URL is a parameter. The `try`/`catch` around the drawing in `generatePDF`, which catches jsPDF's errors, is not modelled.
- `Intl.NumberFormat` currency strings and date formatting: `Invoice.Formatted` and the slice labels keep the number to be formatted, not the string.
- `JSON.stringify` / `JSON.parse`: filters and sorting are kept as uninterpreted encodings (`FiltersJson`, `SortingJson`). The stored session round-trips as the object itself.
- URL percent-encoding of paths and parameters. The email grammar of zod's `.email()` is the parameter `isEmail`.
- Amounts, ids and payment-mode totals are integers. `Number(...)` is modelled for the empty string and optionally signed decimal digits. Other forms (decimals, exponents, surrounding whitespace, hexadecimal) give NaN in the model.
- ListPages.ListPage.HandleConfirmDelete: the rows are a `seq` that the method reassigns. That they are the very array the query cache holds (the splice mutates the cached response) is not modelled.
- Toast auto-hide timers, theme toggling, and the `typeof window !== 'undefined'` checks (the model always runs in a browser).
- The reset of the login form after a successful login is not modelled. The form's values play no further part.
- Validation.Check: strings are sequences of Unicode characters, not of UTF-16 code units. zod's `.min(n)` counts code units, so a name made of one character outside the Basic Multilingual Plane (such as U+1D49C) passes `.min(2)` in the source and fails `Validation.Check` in the model. Likewise `Aside.Initials` takes a whole such character where `charAt(0)` gives its first surrogate. Surrogate pairs are not modelled.
- Js.FindBy: the `find` callbacks read `student.id` and `classname.id` without `?.`, so a null or undefined element of a loaded list throws a TypeError in the source. The model reads such an element's id as undefined, so the element is skipped, unless the target is itself undefined (a payment without `studentId` or `classId`): then the null element matches, and the invoice shows the placeholder. This affects the lookups in `Invoice` and `PaymentForms.SelectedStudent`, where the throw would escape the `useMemo`. The API's lists hold only objects, and the model takes that as given.
- Aside.Initials: the model covers string, null and undefined names. Any other value throws, as JavaScript's missing `split` method does.
- src/Pages/Dashboard.jsx, src/Pages/Setting.jsx, src/Components/Cards/PaymentsPie.tsx, src/Components/MaterialTable.jsx and the presentational files (Stats, SkeletonLoader, CardLoaders, Layout, App, index, ErrorBoundary, tailwind.config.js) only fetch, route or draw. They are not part of this model.
