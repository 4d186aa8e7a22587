# OnlineEducation core, modelled in Dafny

This project models the logic of the OnlineEducation web front end that is
not rendering: the placeholder REST client with its bearer token, the mock
authentication session, the tag and attachment editors of the two create
forms, the search, status splits and captions of the homework, notes and
classes overviews, and the role filter of the navigation sidebar.

The modules map to the source files:

| module | source | form |
|---|---|---|
| `Api` (`api_client.dfy`) | utils/api-client.ts | class `ApiClient` with a token field and the shared storage; pure header, endpoint and outcome functions |
| `Auth` (`auth.dfy`) | hooks/use-auth.tsx | class `AuthProvider` with `user` / `isLoading` fields; pure login derivation and stored form |
| `NotesCreate` (`notes_create.dfy`) | app/notes/create/page.tsx | class `CreateNoteForm`, one method per handler |
| `HomeworkCreate` (`homework_create.dfy`) | app/homework/create/page.tsx | class `CreateHomeworkForm`, one method per handler; pure preview |
| `HomeworkList` (`homework_list.dfy`) | app/homework/page.tsx | pure functions and lemmas; the in-place due-date sort is a method on an `array` |
| `NotesList` (`notes_list.dfy`) | app/notes/page.tsx | pure functions and lemmas |
| `ClassesList` (`classes_list.dfy`) | app/classes/page.tsx | pure functions and lemmas |
| `Sidebar` (`sidebar.dfy`) | components/sidebar.tsx | pure functions and lemmas |
| `Browser` (`browser.dfy`) | `window` / `localStorage` | class `Host`: a window-present flag and a `map<string, string>` |
| `Text`, `Seqs`, `Wrappers` | JavaScript built-ins | `toLowerCase`, `trim`, `includes`, decimal printing; `filter`; `Option` / `Result` |

Modelling choices:

- `fetch` is a function argument from the outgoing request to what came back. That is either a rejection with an error, or a response with `ok`, `status` and a body that `response.json()` either parsed (an opaque value) or failed on with an error.
- `localStorage` is the `map` of one `Browser.Host` object shared by the API client and the auth provider. `typeof window !== 'undefined'` is its `hasWindow` flag.
- `JSON.stringify` of a user is a length-prefixed field encoding, `Auth.Serialize`. `JSON.parse` is its decoder, `Auth.Deserialize`, which yields `None` where parsing would throw. The round trip is proved, so a stored session always restores to the user that was stored.
- `toLowerCase` is ASCII lowercasing. `trim` strips the ECMAScript whitespace and line-terminator code points.
- Dates enter the homework model as the already-parsed UTC millisecond value `dueAt`. The day difference `Math.ceil(diff / 86400000)` is computed on whole milliseconds with integer ceiling division.

## Model

| member | source | states |
|---|---|---|
| Api.ApiBaseUrl | utils/api-client.ts:2 | an unset or empty `NEXT_PUBLIC_API_URL` falls back to `http://localhost:3000/api`, otherwise the variable is used |
| Api.AuthHeader | utils/api-client.ts:22 | `Authorization` is present iff the token is non-null and non-empty, and then is `Bearer <token>`; no other header |
| Api.DefaultHeaders | utils/api-client.ts:20-22 | the header names are exactly `Content-Type` plus `Authorization` when the token is truthy; `Content-Type` is `application/json` |
| Api.MergedHeaders | utils/api-client.ts:20-24 | the merged object has the default names plus the caller's, the caller's value wins on a shared name, and defaults survive elsewhere |
| Api.BuildConfig | utils/api-client.ts:19-26 | a caller `headers` field becomes the sent headers exactly; without one the defaults are sent; method and body are the caller's |
| Api.CallerHeadersDropDefaults | utils/api-client.ts:19-26 | the merge did add `Content-Type`, yet `Content-Type` and `Authorization` are sent iff the caller's own headers contain them |
| Api.Settle | utils/api-client.ts:28-39 | success iff the response is ok and its body parsed, with that body; a non-ok status throws the HTTP error; any other error is rethrown unchanged |
| Api.HttpError | utils/api-client.ts:32 | a plain `Error` whose message starts with `HTTP error! status: ` |
| Api.HttpErrorNamesStatus | utils/api-client.ts:32 | the message is `HTTP error! status: ` followed by digits that parse back to exactly the status |
| Api.HttpErrorInjective | utils/api-client.ts:32 | different statuses give different errors |
| Api.WithClassQuery | utils/api-client.ts:84 | the path is kept as a prefix, and something is appended iff the class id is non-null and non-empty |
| Api.Endpoint | utils/api-client.ts:43-161 | every endpoint is a path of more than one character beginning with `/` |
| Api.Options | utils/api-client.ts:43-161 | the listings pass no options and every other call passes both a method and a body; only `updateNote` uses PUT |
| Api.ClassQueryEndpoints | utils/api-client.ts:82-109 | a non-empty class id gives `/notes?classId=<id>` and `/homework?classId=<id>`; an absent or empty one gives the bare path, so `""` and absent coincide |
| Api.ClassQueryRecoverable | utils/api-client.ts:84 | the class id is exactly the text after `/notes?classId=` |
| Api.ResourceEndpoints | utils/api-client.ts:96-125 | `submitHomework` is a POST to `/homework/<id>/submit`, `updateNote` a PUT to `/notes/<id>` |
| Api.ListingsAreGets | utils/api-client.ts:60-109 | exactly the three listings pass no options, and they go out as GET |
| Api.OnlyUploadOverridesHeaders | utils/api-client.ts:43-161 | only `uploadFile` passes headers; every other endpoint sends exactly the default headers |
| Api.UploadHeaders | utils/api-client.ts:153-160 | an upload sends no `Content-Type`, and `Authorization: Bearer <token>` iff the token is truthy, nothing else |
| Api.ApiClient.constructor | utils/api-client.ts:8-15 | the base URL is the argument or the environment default; with a window the token is the stored `auth_token` (null if absent), without one null |
| Api.ApiClient.Request | utils/api-client.ts:17-40 | the URL is base URL and endpoint joined with no separator; the config is `BuildConfig`; the result is `Settle` of the network's answer |
| Api.ApiClient.Call | utils/api-client.ts:43-161 | every endpoint builder is `request` on its endpoint and options |
| Api.ApiClient.SetToken | utils/api-client.ts:163-168 | the field becomes t; with a window `auth_token` is set to t; no other key changes |
| Api.ApiClient.ClearToken | utils/api-client.ts:170-175 | the field becomes null; with a window `auth_token` is removed; no other key changes |
| Api.TokenSurvivesReload | utils/api-client.ts:163-168 | a new client on the same storage starts with the set token and sends `Bearer t`; without a window nothing survives |
| Api.ClearedTokenStaysCleared | utils/api-client.ts:170-175 | after `clearToken` a new client starts without a token |
| Auth.LoginUser | hooks/use-auth.tsx:50-56 | role teacher iff the e-mail contains `teacher`; name from the role; e-mail kept; id `'1'`; avatar `https://avatar.vercel.sh/<email>` |
| Auth.LoginIgnoresPassword | hooks/use-auth.tsx:46-56 | the password does not affect the user |
| Auth.DecodeEncodeField | hooks/use-auth.tsx:41-59 | a field of the stored form decodes back to itself, leaving the rest |
| Auth.ParseRoleName | hooks/use-auth.tsx:9 | a role name reads back as the role |
| Auth.ParseAvatarText | hooks/use-auth.tsx:10 | an optional avatar reads back as itself |
| Auth.Deserialize | hooks/use-auth.tsx:30 | text that does not start like a stored user, the empty text included, does not parse |
| Auth.Serialize | hooks/use-auth.tsx:41-59 | the stored form of a user is never the empty string, so a stored session is always truthy |
| Auth.DeserializeSerialize | hooks/use-auth.tsx:30-59 | parsing the stored form gives back the stored user |
| Auth.SerializeInjective | hooks/use-auth.tsx:41-59 | different users are stored differently |
| Auth.AuthProvider.constructor | hooks/use-auth.tsx:22-24 | starts with no user and loading |
| Auth.AuthProvider.Restore | hooks/use-auth.tsx:26-44 | a stored non-empty user is restored and loading ends; an unparsable one throws before loading ends; otherwise the demo student is installed, stored, and loading ends |
| Auth.AuthProvider.Login | hooks/use-auth.tsx:46-61 | the user is the derived one, its stored form is under `user`, loading is off |
| Auth.AuthProvider.Logout | hooks/use-auth.tsx:63-66 | no user; the `user` key removed and no other key touched |
| Auth.ReloadAfterLogin | hooks/use-auth.tsx:26-61 | a new provider on the same storage restores exactly the logged-in user |
| Auth.ReloadAfterLogout | hooks/use-auth.tsx:26-66 | after logout a new provider installs and stores the demo student |
| Auth.UseAuth | hooks/use-auth.tsx:76-82 | fails with `useAuth must be used within an AuthProvider` iff there is no provider value, else returns it |
| Text.Lower | app/homework/page.tsx:85-87 | same length, and each character is lowercased on its own |
| Text.LowerIdempotent | app/homework/page.tsx:85-87 | lowercasing twice is lowercasing once |
| Text.MatchesQuery | app/homework/page.tsx:85-87 | a query longer than the field never matches |
| Text.Trim | app/notes/create/page.tsx:50 | never longer than its input, and never starts or ends with whitespace |
| Text.TrimIsWhitespaceFramedSlice | app/notes/create/page.tsx:50 | the result is one contiguous piece of the input, with only whitespace before it and after it |
| Text.TrimIdempotent | app/notes/create/page.tsx:50-51 | a trimmed tag trims to itself |
| Text.TrimmedIffFixed | app/notes/create/page.tsx:50-51 | `trim` leaves a string alone iff it has no whitespace at either end |
| Text.TrimEmptyIffAllSpace | app/notes/create/page.tsx:50 | the tag box is rejected as empty iff it holds only whitespace |
| Text.QueryCaseIrrelevant | app/homework/page.tsx:85-87 | lowercasing the query before the case-insensitive test changes nothing |
| Seqs.Filter | app/notes/page.tsx:75-82 | the result is an ordered sublist no longer than the input whose elements pass the test, and every passing element of the input is in it |
| Seqs.FilterCounts | app/notes/page.tsx:75-82 | a passing value occurs in the result exactly as often as in the input, a failing one not at all |
| Seqs.RemoveAll | app/notes/create/page.tsx:57 | every copy of the value goes, every other value keeps its number of occurrences and its order, and an absent value changes nothing |
| Seqs.RemoveAt | app/homework/create/page.tsx:63 | an in-range index drops exactly that entry with the rest in order; any other index changes nothing |
| Seqs.FilterSplits | app/notes/page.tsx:81-82 | filtering by a test and by its negation splits a list, element counts and length included |
| NotesCreate.AddedKeepsValid | app/notes/create/page.tsx:50-51 | the guarded append keeps the tags duplicate-free, non-empty and trimmed, and adds exactly one tag when it adds |
| NotesCreate.AddedIdempotent | app/notes/create/page.tsx:50-51 | adding the same text a second time changes nothing |
| NotesCreate.RemoveUndoesAdd | app/notes/create/page.tsx:50-57 | removing a freshly added tag gives back the earlier list |
| NotesCreate.RemoveKeepsValid | app/notes/create/page.tsx:57 | removal keeps the tag invariant |
| NotesCreate.SuggestionsAreTrimmed | app/notes/create/page.tsx:221 | each suggestion is a non-empty trimmed tag |
| NotesCreate.CreateNoteForm.constructor | app/notes/create/page.tsx:18-26 | no tags, empty tag box, fields empty and `shareWith` `private` |
| NotesCreate.CreateNoteForm.SetNewTag | app/notes/create/page.tsx:193 | only the tag box changes |
| NotesCreate.CreateNoteForm.AddTag | app/notes/create/page.tsx:49-54 | the trimmed text is appended and the box cleared iff it is non-empty and new; otherwise tags and box are unchanged; the invariant holds |
| NotesCreate.CreateNoteForm.RemoveTag | app/notes/create/page.tsx:56-58 | every copy of t is removed, order kept, t absent after, no-op when absent; the invariant holds |
| NotesCreate.CreateNoteForm.HandleKeyPress | app/notes/create/page.tsx:60-65 | Enter is prevented and adds the tag; any other key changes nothing |
| NotesCreate.CreateNoteForm.ClickSuggestion | app/notes/create/page.tsx:225-229 | the suggestion is appended iff not yet present; the box is untouched; the invariant holds |
| NotesCreate.CreateNoteForm.HandleInputChange | app/notes/create/page.tsx:45-47 | that field is set and every other field keeps its value |
| HomeworkCreate.AttachmentNameInjective | app/homework/create/page.tsx:58 | different numbers give different file names |
| HomeworkCreate.Numbered | app/homework/create/page.tsx:56-60 | after k additions, entry i is `attachment_<i+1>.pdf` |
| HomeworkCreate.NumberedGrows | app/homework/create/page.tsx:56-60 | one more addition numbers the next entry |
| HomeworkCreate.NumberedDistinct | app/homework/create/page.tsx:56-60 | without removals no name repeats |
| HomeworkCreate.RemoveThenAddRepeatsName | app/homework/create/page.tsx:58-63 | from two attachments, removing index 0 and adding gives `attachment_2.pdf` twice |
| HomeworkCreate.PreviewOf | app/homework/create/page.tsx:289-304 | "Allowed" iff late submissions are truthy, else "Not allowed"; the count is the attachment count; "Not set" without a due date; the points as entered |
| HomeworkCreate.InitialPreview | app/homework/create/page.tsx:289-304 | a fresh form previews 100 points, no due date, no attachments, late submissions allowed |
| HomeworkCreate.SwitchLateSubmissions | app/homework/create/page.tsx:250-251 | flipping the switch flips the label and leaves the points |
| HomeworkCreate.CreateHomeworkForm.constructor | app/homework/create/page.tsx:21-33 | text fields empty, points `100`, late submissions on, files and attempts off, no attachments |
| HomeworkCreate.CreateHomeworkForm.AddAttachment | app/homework/create/page.tsx:56-60 | appends `attachment_<n+1>.pdf` for current length n; length grows by one; earlier entries kept |
| HomeworkCreate.CreateHomeworkForm.RemoveAttachment | app/homework/create/page.tsx:62-64 | the list becomes `RemoveAt` of the index |
| HomeworkCreate.CreateHomeworkForm.HandleInputChange | app/homework/create/page.tsx:52-54 | only the named field changes |
| HomeworkCreate.CreateHomeworkForm.SetDueDate | app/homework/create/page.tsx:215 | the due date becomes the picked day, or unset when the selection is cleared; nothing else changes |
| HomeworkCreate.CreateHomeworkForm.CurrentPreview | app/homework/create/page.tsx:289-304 | the preview of the current state |
| HomeworkList.MockHomework | app/homework/page.tsx:33-82 | three assignments with ids 1, 2, 3 and statuses pending, submitted, overdue |
| HomeworkList.MockOwnership | app/homework/page.tsx:33-82 | assignments 1 and 3 are owned iff the viewer teaches; 2 never |
| HomeworkList.Search | app/homework/page.tsx:84-88 | an item is kept iff the query occurs case-insensitively in title, description or class name, as often as it occurs; order kept |
| HomeworkList.EmptySearchKeepsAll | app/homework/page.tsx:84-88 | an empty query keeps every item |
| HomeworkList.SearchIgnoresQueryCase | app/homework/page.tsx:84-88 | the query's case does not matter |
| HomeworkList.WithStatus | app/homework/page.tsx:90-92 | an item is kept iff its status equals the given one, as often as it occurs; order kept |
| HomeworkList.Pending | app/homework/page.tsx:90 | every `pending` item, as often as it occurs, and nothing else |
| HomeworkList.Submitted | app/homework/page.tsx:91 | every `submitted` item, as often as it occurs, and nothing else |
| HomeworkList.Overdue | app/homework/page.tsx:92 | every `overdue` item, as often as it occurs, and nothing else |
| HomeworkList.StatusNamesDistinct | app/homework/page.tsx:90-92 | the three status names differ |
| HomeworkList.StatusListsPartition | app/homework/page.tsx:90-92 | pending, submitted and overdue lists are ordered sublists, pairwise disjoint, and cover every item with one of those statuses |
| HomeworkList.KindOf | app/homework/page.tsx:94-114 | `submitted` and `overdue` are recognised, any other status is pending |
| HomeworkList.StatusIcon | app/homework/page.tsx:94-103 | the check icon goes with green, and the alert icon is shown iff the status is `overdue` |
| HomeworkList.StatusBadge | app/homework/page.tsx:105-114 | the badge is destructive iff overdue and coloured iff submitted |
| HomeworkList.CaptionColour | app/homework/page.tsx:163-167 | red iff overdue, green iff submitted, yellow otherwise |
| HomeworkList.StatusLabelsAgree | app/homework/page.tsx:94-114 | the badge text is Submitted, Overdue or Pending by status; icon and caption colour agree |
| HomeworkList.DaysUntilDue | app/homework/page.tsx:117-120 | the ceiling of the difference in whole days |
| HomeworkList.DueText | app/homework/page.tsx:122-125 | `<n> days overdue` below zero, `Due today` at 0, `Due tomorrow` at 1, `<n> days left` from 2 on |
| HomeworkList.ReadOverdueText | app/homework/page.tsx:122 | a negative difference's caption `<n> days overdue` reads back as that difference |
| HomeworkList.ReadFixedTexts | app/homework/page.tsx:123-124 | `Due today` and `Due tomorrow` read back as 0 and 1 |
| HomeworkList.ReadDaysLeftText | app/homework/page.tsx:125 | a difference of two or more gives `<n> days left`, which reads back as n |
| HomeworkList.ReadDueTextOfDueText | app/homework/page.tsx:122-125 | every caption (overdue, today, tomorrow, days left) reads back as its day difference |
| HomeworkList.DueTextInjective | app/homework/page.tsx:122-125 | different day differences give different captions |
| HomeworkList.ActionFor | app/homework/page.tsx:198-206 | no button iff the viewer is not the owning teacher and the work is submitted or overdue |
| HomeworkList.ActionVisibility | app/homework/page.tsx:198-206 | Edit iff teacher and owner; otherwise Upload iff not submitted and not overdue |
| HomeworkList.GradeText | app/homework/page.tsx:143-180 | the grade badge and row are shown iff the grade is non-null |
| HomeworkList.GradeTextReadable | app/homework/page.tsx:145 | the badge starts with the grade followed by `/` and the maximum |
| HomeworkList.AttachmentLine | app/homework/page.tsx:182-187 | the attachment line is shown iff there are attachments |
| HomeworkList.ChromeFor | app/homework/page.tsx:220-291 | the create button only for teachers; counters and status tabs only for others |
| HomeworkList.SortByDueDate | app/homework/page.tsx:295 | the array ends sorted ascending by due time and is a permutation of what it held |
| HomeworkList.SortedCopy | app/homework/page.tsx:295 | a sorted permutation of the list it is given |
| HomeworkList.AllTab | app/homework/page.tsx:293-297 | the tab shows the search result in due-date order, as a permutation |
| NotesList.MockNotes | app/notes/page.tsx:30-73 | three notes with ids 1, 2, 3 shared with `class`, `peers` and `private` |
| NotesList.MockOwnership | app/notes/page.tsx:30-73 | the first note is owned iff the user id is `'1'`; the others never |
| NotesList.SessionUsersOwnFirstNote | app/notes/page.tsx:43 | the demo student and every logged-in user own the first note |
| NotesList.Search | app/notes/page.tsx:75-79 | kept iff the query occurs case-insensitively in title, content or some tag, as often as it occurs; order kept |
| NotesList.TagHitIsFound | app/notes/page.tsx:78 | a matching tag alone keeps the note |
| NotesList.EmptySearchKeepsAll | app/notes/page.tsx:75-79 | an empty query keeps every note |
| NotesList.SearchIgnoresQueryCase | app/notes/page.tsx:75-79 | the query's case does not matter |
| NotesList.MyNotes | app/notes/page.tsx:81 | every owned note, as often as it occurs, and nothing else |
| NotesList.SharedNotes | app/notes/page.tsx:82 | every note not owned, as often as it occurs, and nothing else |
| NotesList.MySharedPartition | app/notes/page.tsx:81-82 | My and Shared are ordered, disjoint, hold every filtered note as often as it occurs, and their counts sum to the total |
| NotesList.ShareText | app/notes/page.tsx:95-104 | `Shared with class` iff `class`, `Shared with peers` iff `peers` |
| NotesList.ShareIconOf | app/notes/page.tsx:84-93 | the users icon iff `class`, the share icon iff `peers` |
| NotesList.ShareCaptions | app/notes/page.tsx:84-104 | `class` and `peers` get their captions, everything else (`public` too) reads Private; icon follows caption |
| NotesList.ControlsFor | app/notes/page.tsx:161-165 | Edit/Delete iff owner, Share iff not, so exactly one |
| NotesList.EmptyStateOf | app/notes/page.tsx:241-257 | shown iff nothing matches; a non-empty query asks to adjust the search, an empty one offers Create Note |
| NotesList.CreatePromptUnreachable | app/notes/page.tsx:241-257 | with the mock notes an empty query never reaches the empty state |
| ClassesList.MockClasses | app/classes/page.tsx:33-67 | three classes with ids 1, 2, 3 and join codes RC2024, JS2024, NODE24 |
| ClassesList.MockOwnership | app/classes/page.tsx:33-67 | classes 1 and 3 are owned iff the viewer teaches; class 2 never |
| ClassesList.Search | app/classes/page.tsx:69-72 | kept iff the query occurs case-insensitively in title or description, as often as it occurs; order kept |
| ClassesList.EmptySearchKeepsAll | app/classes/page.tsx:69-72 | an empty query keeps every class in order |
| ClassesList.SearchIgnoresQueryCase | app/classes/page.tsx:69-72 | the query's case does not matter |
| ClassesList.ButtonsFor | app/classes/page.tsx:203-211 | the owner gets more-options and Edit, anyone else Share |
| ClassesList.HeaderFor | app/classes/page.tsx:86-132 | Join Class for non-teachers, Create Class for teachers |
| ClassesList.EmptyStateOf | app/classes/page.tsx:218-238 | shown iff nothing matches; message by query and role; button only for an empty query, to `/classes/create` for teachers and `#` otherwise |
| ClassesList.EmptyQueryNeverEmpty | app/classes/page.tsx:218-238 | with the mock classes an empty query never reaches the empty state |
| Sidebar.EffectiveRole | components/sidebar.tsx:67 | a missing user counts as a student |
| Sidebar.FilteredItems | components/sidebar.tsx:66-68 | an item is shown iff its roles contain the effective role; order kept |
| Sidebar.TeacherItems | components/sidebar.tsx:18-68 | teachers see all six items |
| Sidebar.StudentItems | components/sidebar.tsx:18-68 | everyone else sees the five items other than Students, in order |
| Sidebar.HrefsDistinct | components/sidebar.tsx:18-55 | the six hrefs are distinct |
| Sidebar.NavLinks | components/sidebar.tsx:94-114 | one link per shown item; active iff the path equals its href; every link closes the menu |
| Sidebar.AtMostOneActive | components/sidebar.tsx:96 | no two rows are active at once |
| Sidebar.CurrentPageHighlighted | components/sidebar.tsx:96 | on a shown item's own path that item is active |

## Left out

- Network transport, `console.error` and the contents of `response.json()`: the response and its parsed body are opaque values supplied by the `fetch` argument.
- The `FormData` and `File` contents of `uploadFile`: only the file reference, the path and the headers are kept.
- Real `JSON.stringify`/`JSON.parse`: the stored user form is a length-prefixed encoding with the same round-trip behaviour.
- Auth.AuthProvider.Restore: a stored value that is valid JSON but not a user (such as `null`) is treated like unparsable text, where the browser would install that value.
- The full Unicode `toLowerCase`: only ASCII letters are lowercased. `trim` uses the exact ECMAScript whitespace set.
- `Date` parsing and `getTime`: each assignment carries its due time in UTC milliseconds, and the current time is an argument.
- HomeworkList.DaysUntilDue: Math.ceil on a floating-point quotient is modelled as exact integer ceiling division, so floating-point rounding is not modelled.
- The grade percentage `(grade / maxPoints) * 100` is floating point and is not modelled. The `toLocaleDateString` and `format(dueDate, "MMM dd")` texts are passed in or left out.
- HomeworkList.SortByDueDate: the sort is stated as sorted plus a permutation. Stability of `Array.prototype.sort` and the NaN comparisons of unparsable dates are not stated.
- `setTimeout` submits, `router.push` and the `window.location.href` redirect of logout are timers and navigation without logic.
- All JSX, styling and icons beyond the choice of icon are left out. React state is plain fields; re-render timing and stale closures are not modelled.
- The banner image URL and colour class of each mock class only style the card and are not fields of `ClassesList.Class`.
- The class join code box and `handleJoinClass` only log to the console.
- `Role` is an enumeration, so the empty-string case of `user?.role || 'student'` with a present user cannot arise.
