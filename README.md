# Gemini-clone client state, modelled in Dafny

This project models the client-side logic of a demo chat front end: a
conversation store, a session store and a dark-mode store, plus the guards
that the views put in front of them. The conversation store holds an ordered
list of chatrooms, a current-room pointer, an "assistant is typing" flag and
a search string. The session store holds a simulated phone/OTP sign-in. The
views guard the stores: the dashboard's search and delete rule, the chat
pane's send, image and Enter-key rules, the two-step sign-in form and the
country dial-code helpers.

One Dafny module per source file:

- `Chat` models `src/stores/chat.ts`.
- `Auth` models `src/stores/auth.ts`.
- `Theme` models `src/stores/theme.ts`.
- `Countries` models `src/hooks/useCountries.ts`.
- `Dashboard`, `ChatInterface` and `AuthForm` model the three components.
- `Types` models `src/types/index.ts`.
- `Text` models the JavaScript string operations the code uses.
- `Seqs` models `Array.prototype.filter`.

Stores and component state are classes whose methods update their fields.
Each method's `ensures` gives the new state as a function of the old one.
The per-room rewrites, the filters and the guards are pure functions. The
lemmas about them hold the proofs.

Things the code takes from outside become parameters:

- generated ids (`freshId`), clock readings (`now`, in milliseconds) and random choices;
- the reply index `k`, and the author flags `coins` of the invented older messages;
- the network outcome of the country request;
- the data URL a file reader produces, and whether a clipboard write succeeded.

The assistant's delayed reply is a separate step, `Chat.ChatStore.DeliverReply`.

Behaviour of the code that the model keeps:

- The store neither trims titles nor refuses to delete the last room. The
  dashboard trims the title (`Dashboard.tsx:80`). Its trash button refuses
  while at most one room exists (`Dashboard.tsx:94-97`). Otherwise it puts a
  confirmation on screen, and the confirmation deletes later without
  checking again (`Dashboard.tsx:104-105`). So the delete is two steps,
  `HandleDeleteChatroom` and `ConfirmDelete`; see "## Findings".
- A reply whose room was deleted meanwhile changes no room. It still clears
  the typing flag (`Chat.EditMissingRoom`, `Chat.ChatStore.DeliverReply`).
- JavaScript truthiness is modelled as written:
  - `updatedChatrooms[0]?.id || null` gives null when the first remaining id is the empty string;
  - an empty-string image counts as no image, both for the send guard and for `selectedImage || undefined`.

## Model

| member | source | states |
|---|---|---|
| `Text.TrimStart` | src/components/chat/ChatInterface.tsx:58 | the result is the longest suffix of the input that does not start with white space; every dropped character is white space |
| `Text.TrimEnd` | src/components/chat/ChatInterface.tsx:58 | the result is the longest prefix that does not end with white space; every dropped character is white space |
| `Text.Trim` | src/components/chat/ChatInterface.tsx:58 | `trim` never lengthens its input, and the result neither starts nor ends with white space |
| `Text.TrimIsSlice` | src/components/chat/ChatInterface.tsx:58 | `trim` keeps a slice of the input; everything cut on either side is white space; the slice neither starts nor ends with white space |
| `Text.TrimEmptyIff` | src/components/dashboard/Dashboard.tsx:250 | `trim` gives "" exactly when every character of the input is white space |
| `Text.TrimIdempotent` | src/components/dashboard/Dashboard.tsx:80 | trimming an already trimmed title changes nothing |
| `Text.Lower` | src/components/dashboard/Dashboard.tsx:70 | lower-casing keeps the length and folds each character on its own |
| `Text.LowerIdempotent` | src/components/dashboard/Dashboard.tsx:70 | a folded string has no upper-case ASCII letter, so folding it again changes nothing |
| `Text.Contains` | src/components/dashboard/Dashboard.tsx:70 | `includes` can hold only when the needle is no longer than the haystack; `Text.ContainsIff` gives the exact condition |
| `Text.ContainsIff` | src/components/dashboard/Dashboard.tsx:70 | `includes` holds exactly when the needle occurs at some position of the haystack |
| `Text.ContainsEmpty` | src/components/dashboard/Dashboard.tsx:69-71 | every string includes the empty string |
| `Text.AllDigits` | src/stores/auth.ts:38 | the left-to-right digit check holds exactly when every character is 0-9 |
| `Text.NatToString` | src/stores/chat.ts:140 | the decimal rendering of a number is non-empty and all digits, with two or more digits exactly from 10 up |
| `Seqs.Filter` | src/stores/chat.ts:71 | `filter` never lengthens a list |
| `Seqs.FilterMembership` | src/stores/chat.ts:71 | an element is kept exactly when it is in the input and passes the predicate |
| `Seqs.FilterCount` | src/hooks/useCountries.ts:26-28 | an element that passes keeps its multiplicity, and any other element gets multiplicity 0 |
| `Seqs.FilterSubMultiset` | src/hooks/useCountries.ts:26-28 | the result is a sub-multiset of the input |
| `Seqs.FilterConcat` | src/components/dashboard/Dashboard.tsx:69-71 | filtering distributes over concatenation, so the kept elements stay in their original order |
| `Seqs.FilterAllPass` | src/components/dashboard/Dashboard.tsx:69-71 | when every element passes, the result is the input |
| `Seqs.FilterEmptyIff` | src/components/dashboard/Dashboard.tsx:274 | the result is empty exactly when no element passes |
| `Chat.SeedMessages` | src/stores/chat.ts:18-37 | the default room is seeded with exactly three demo messages |
| `Chat.DefaultRoom` | src/stores/chat.ts:42-50 | the initial room is `default-chat`, titled `General Chat`, with 3 messages; its cached last message is the third one |
| `Chat.AiReply` | src/stores/chat.ts:108-114 | the reply is a non-user message without image, and its content is one of the canned responses |
| `Chat.OlderMessages` | src/stores/chat.ts:138-143 | the invented batch has one message per supplied id, with that id and that author flag, in order |
| `Chat.EditRoom` | src/stores/chat.ts:92-102 | the per-room `map` keeps the number of rooms |
| `Chat.EditRoomAt` | src/stores/chat.ts:93-101 | each room with the target id is rewritten in place; every other room stays exactly as it was, at the same index |
| `Chat.EditMissingRoom` | src/stores/chat.ts:116-125 | when no room has the target id, the room list is unchanged |
| `Chat.EditKeepsLastIsLast` | src/stores/chat.ts:145-151 | appending and prepending both keep every room's cached last message equal to its last element |
| `Chat.AppendEffect` | src/stores/chat.ts:92-102 | `addMessage` grows the target room by exactly the new message at the end, caches it as last, and changes no other field |
| `Chat.UserTurnThenReply` | src/stores/chat.ts:85-128 | a user message followed by its reply adds exactly two messages to the room, user first, and caches the reply |
| `Chat.PrependEffect` | src/stores/chat.ts:145-151 | `loadMoreMessages` puts the batch in front, so the old messages are the suffix after it; the cached last message does not change |
| `Chat.RemoveRoomExact` | src/stores/chat.ts:71 | deleting keeps exactly the rooms with another id, each with its former multiplicity |
| `Chat.RemoveRoomOrder` | src/stores/chat.ts:71 | deleting keeps the relative order of the rooms that remain |
| `Chat.RemoveRoom` | src/stores/chat.ts:71 | no room with the deleted id remains, and the list never grows |
| `Chat.FirstIdOrNull` | src/stores/chat.ts:73 | the first remaining id, or null exactly when no room remains or that id is the empty string |
| `Chat.PointerAfterDelete` | src/stores/chat.ts:72-74 | a pointer that named another room is kept; one that named the deleted room becomes null or the first remaining room's id |
| `Chat.PointerAfterDeleteFacts` | src/stores/chat.ts:72-74 | after a delete the pointer never names the deleted id; it is unchanged unless it named that id; a room with another id always survives; the pointer then names the first remaining room when its id is non-empty, and is null when that id is empty or no room remains |
| `Chat.ChatStore.constructor` | src/stores/chat.ts:42-53 | the store starts with the default room only; that room is current, typing is off and the search is empty |
| `Chat.ChatStore.AddChatroom` | src/stores/chat.ts:55-67 | a new empty room with exactly the given title goes in front of the old rooms, which keep their order; it becomes current |
| `Chat.ChatStore.DeleteChatroom` | src/stores/chat.ts:69-81 | removes every room with the id, repairs the pointer as above, and keeps the cached-last invariant |
| `Chat.ChatStore.SetCurrentChatroom` | src/stores/chat.ts:83 | stores the id without checking that a room has it |
| `Chat.ChatStore.AddMessage` | src/stores/chat.ts:85-106 | appends the stamped message to the room with the id; typing becomes true exactly for a user message and is otherwise left alone |
| `Chat.ChatStore.DeliverReply` | src/stores/chat.ts:108-128 | appends canned reply `k` to the room with the id, if it still exists, and turns typing off in every case |
| `Chat.ChatStore.SetTyping` | src/stores/chat.ts:132 | sets the typing flag |
| `Chat.ChatStore.SetSearchQuery` | src/stores/chat.ts:134 | stores the query verbatim |
| `Chat.ChatStore.LoadMoreMessages` | src/stores/chat.ts:136-152 | prepends a batch of exactly ten invented messages to the room with the id, and keeps the invariant |
| `Auth.IsValidOtp` | src/stores/auth.ts:38 | a code is accepted exactly when it has 6 characters and each is a digit 0-9 |
| `Auth.SignedIn` | src/stores/auth.ts:39-44 | the created user is authenticated and carries the given phone and country code |
| `Auth.OtpExamples` | src/stores/auth.ts:38 | 123456 and 000000 are accepted; 5 or 7 digits, a letter, or a leading space are refused |
| `Auth.AuthStore.constructor` | src/stores/auth.ts:9-11 | the store starts with no user, not loading, and no countries |
| `Auth.AuthStore.SetUser` | src/stores/auth.ts:13 | stores the user; the "stored user is authenticated" invariant holds afterwards exactly when the argument is null or authenticated |
| `Auth.AuthStore.SetLoading` | src/stores/auth.ts:15 | sets the loading flag |
| `Auth.AuthStore.SetCountries` | src/stores/auth.ts:17 | replaces the country list |
| `Auth.AuthStore.SendOtp` | src/stores/auth.ts:19-29 | always reports success, ends not loading, and leaves the user alone |
| `Auth.AuthStore.Login` | src/stores/auth.ts:31-52 | succeeds exactly for a valid code; on success the user is a new authenticated user with the given phone and code; on failure the user is unchanged; loading ends either way |
| `Auth.AuthStore.Logout` | src/stores/auth.ts:54-56 | clears the user unconditionally |
| `Theme.ThemeStore.constructor` | src/stores/theme.ts:8 | dark mode starts off |
| `Theme.ThemeStore.Toggle` | src/stores/theme.ts:9 | negates the flag and changes nothing else |
| `Theme.ToggleTwice` | src/stores/theme.ts:9 | toggling twice restores the original mode |
| `Countries.DialCode` | src/hooks/useCountries.ts:44-48 | for a country that passes the filter, root followed by first suffix and never empty; with neither root nor suffixes, the empty string |
| `Countries.ValidCountries` | src/hooks/useCountries.ts:26-28 | every kept country has a non-empty root and a suffix and comes from the response; the list never grows |
| `Countries.ErrorMessage` | src/hooks/useCountries.ts:19-21 | no message exactly for a fetched response; a thrown `Error` shows its own message; any other thrown value shows "Failed to load countries" |
| `Countries.DialCodeParts` | src/hooks/useCountries.ts:44-48 | a missing root contributes nothing; missing or empty suffixes leave the root alone; a present root always starts the dial code |
| `Countries.ValidCountriesExact` | src/hooks/useCountries.ts:26-28 | the filter keeps exactly the countries with a non-empty root and a suffix, with their multiplicities; a kept country's dial code is root plus first suffix and is never empty |
| `Countries.CountriesHook.constructor` | src/hooks/useCountries.ts:6-7 | the hook starts not loading and without error |
| `Countries.CountriesHook.FetchCountries` | src/hooks/useCountries.ts:10-38 | skipped entirely when countries are loaded; otherwise stores the valid countries of a good response or the matching error message, and ends not loading |
| `Dashboard.FilteredChatrooms` | src/components/dashboard/Dashboard.tsx:69-71 | every room in the result matches the query, and the result is never longer than the list |
| `Dashboard.FilteredExact` | src/components/dashboard/Dashboard.tsx:69-71 | the search keeps exactly the rooms whose lower-cased title includes the lower-cased query, with their multiplicities |
| `Dashboard.FilteredOrder` | src/components/dashboard/Dashboard.tsx:69-71 | the search keeps the original order of the rooms |
| `Dashboard.EmptyQueryKeepsAll` | src/components/dashboard/Dashboard.tsx:69-71 | an empty query keeps every room |
| `Dashboard.SearchExample` | src/components/dashboard/Dashboard.tsx:69-71 | "gen" finds "General Chat" and not "Random" |
| `Dashboard.ShowsNoChatsFound` | src/components/dashboard/Dashboard.tsx:274 | "No chats found" shows exactly when the query is non-empty and no title matches it |
| `Dashboard.CreateDisabled` | src/components/dashboard/Dashboard.tsx:250 | Create is disabled exactly while the title is all white space |
| `Dashboard.GuardedDeleteKeepsARoom` | src/components/dashboard/Dashboard.tsx:94-97 | with distinct ids, a delete applied to the same list its guard saw leaves at least one room |
| `Dashboard.TwoConfirmedDeletesEmptyTheList` | src/components/dashboard/Dashboard.tsx:93-114 | two rooms with different ids both pass the guard, and confirming both deletes leaves no room |
| `Dashboard.RecheckedDelete` | src/components/dashboard/Dashboard.tsx:94-105 | a confirmation that checks the guard again deletes only while more than one room exists, and with distinct ids never leaves the list empty |
| `Dashboard.DashboardView.constructor` | src/components/dashboard/Dashboard.tsx:32-34 | the create form starts closed and not busy, with no delete confirmation on screen |
| `Dashboard.DashboardView.HandleCreateChatroom` | src/components/dashboard/Dashboard.tsx:73-91 | the store gets a new room with the trimmed title; the form is closed and the busy flag is down afterwards |
| `Dashboard.DashboardView.HandleDeleteChatroom` | src/components/dashboard/Dashboard.tsx:93-114 | refused exactly when at most one room exists; otherwise one more confirmation for the id is on screen; the store is not touched either way |
| `Dashboard.DashboardView.ConfirmDelete` | src/components/dashboard/Dashboard.tsx:104-107 | deletes the id from the store as it is now, without a second count check, repairs the pointer, and removes that confirmation |
| `Dashboard.DashboardView.CancelDelete` | src/components/dashboard/Dashboard.tsx:109-112 | removes the confirmation and changes nothing else |
| `ChatInterface.ImageToSend` | src/components/chat/ChatInterface.tsx:65 | an image is passed on exactly when one is selected and non-empty, and then unchanged |
| `ChatInterface.NothingToSend` | src/components/chat/ChatInterface.tsx:59 | the send guard stops a send exactly when the draft is all white space and no image is selected |
| `ChatInterface.CheckImage` | src/components/chat/ChatInterface.tsx:76-90 | no file, then too large (over 5 MiB) whatever the type, then not an `image/` type, otherwise accepted, each exactly |
| `ChatInterface.ImageLimitExamples` | src/components/chat/ChatInterface.tsx:81-84 | exactly 5 MiB is accepted; one byte more is too large even for a non-image |
| `ChatInterface.ChatPane.constructor` | src/components/chat/ChatInterface.tsx:21-24 | the pane starts with an empty draft, no image and nothing marked copied |
| `ChatInterface.ChatPane.EditDraft` | src/components/chat/ChatInterface.tsx:37-42 | typing replaces the draft |
| `ChatInterface.ChatPane.HandleSendMessage` | src/components/chat/ChatInterface.tsx:57-74 | sends exactly when the send button is enabled; then one user message with the trimmed text and the image, after which draft and image are cleared; otherwise neither the pane nor the store changes |
| `ChatInterface.ChatPane.HandleKeyPress` | src/components/chat/ChatInterface.tsx:116-121 | sends exactly for Enter without Shift while the send button is enabled, with the same new state as a send; in every other case neither the pane nor the store changes |
| `ChatInterface.ChatPane.HandleImageUpload` | src/components/chat/ChatInterface.tsx:76-99 | an accepted file becomes the selected image; a refused one leaves the selection as it was |
| `ChatInterface.ChatPane.ClearImage` | src/components/chat/ChatInterface.tsx:267 | removes the selected image |
| `ChatInterface.ChatPane.HandleCopyMessage` | src/components/chat/ChatInterface.tsx:101-114 | marks the message copied only when the clipboard write succeeds |
| `ChatInterface.ChatPane.ClearCopied` | src/components/chat/ChatInterface.tsx:108-110 | the timer clears the copied mark |
| `AuthForm.FindCountry` | src/components/auth/AuthForm.tsx:58 | `find` returns a listed country with the code, or nothing exactly when no country has it |
| `AuthForm.FindCountryFirst` | src/components/auth/AuthForm.tsx:58 | `find` returns the country at the first index whose code matches |
| `AuthForm.DefaultToSelect` | src/components/auth/AuthForm.tsx:53-66 | the mount effect only ever selects a listed country with the placeholder code, and only while nothing is selected |
| `AuthForm.AuthFlow.constructor` | src/components/auth/AuthForm.tsx:20-23 | the form starts on the phone step, list closed, nothing selected |
| `AuthForm.AuthFlow.EditPhone` | src/components/auth/AuthForm.tsx:29-35 | typing replaces the phone field |
| `AuthForm.AuthFlow.ToggleCountryList` | src/components/auth/AuthForm.tsx:164 | opens or closes the country list |
| `AuthForm.AuthFlow.HandleCountrySelect` | src/components/auth/AuthForm.tsx:69-74 | selects the country, puts its dial code in the form and closes the list |
| `AuthForm.AuthFlow.SelectDefaultCountry` | src/components/auth/AuthForm.tsx:53-66 | applies the default selection when there is one, and otherwise changes nothing |
| `AuthForm.AuthFlow.HandleSendOtp` | src/components/auth/AuthForm.tsx:76-92 | records country code followed by phone, sends the code, moves to the code step; the user is untouched |
| `AuthForm.AuthFlow.HandleVerifyOtp` | src/components/auth/AuthForm.tsx:94-110 | logs in with the phone form's number and code; success goes to the dashboard; failure stays on the code step with "Invalid OTP code" on the field |
| `AuthForm.AuthFlow.Back` | src/components/auth/AuthForm.tsx:123 | back from the code step returns to the phone step; back from the phone step leaves the form for the home page |
| `AuthForm.AuthFlow.BackToPhone` | src/components/auth/AuthForm.tsx:271 | returns to the phone step |

## Left out

- Timers and delays are not modelled. This covers the 500 ms, 1.5 s and 2 s waits and the 1-3 s reply delay. A reply is the explicit step `DeliverReply`. Several outstanding replies are several such calls, in any order the caller picks.
- Busy flags that are raised only around an `await` are kept as post-states. These are `isLoading` in `sendOTP`/`login` and `isCreatingChatroom` in the dashboard.
- `generateId`, `new Date()`, `debounce` and `formatDate` live in `src/lib/utils`, which is not part of this model. Ids and times are parameters. The search is modelled without its 300 ms debounce.
- The zod schemas in `src/lib/validations` are not part of this model. Form submissions are modelled as if the schema accepted the input.
- Persistence through zustand `persist` and localStorage is I/O and library behaviour. Dates rehydrating as strings goes with it.
- Text.Lower: folds ASCII letters only, because Unicode lower-casing is out of reach. Titles with other cased letters may compare differently.
- Countries.CountriesHook.FetchCountries: stores the valid countries in response order. The `localeCompare` sort by name is locale-dependent collation and is not modelled. The multiset of stored countries is the same.
- Countries.CountriesHook.FetchCountries: the request and JSON parsing are a `FetchOutcome` parameter. A country record without any `idd` object is not represented.
- AuthForm.AuthFlow.HandleSendOtp: `sendOTP` always reports success, so the failure branch (stay on the phone step) and the `catch` branches cannot be reached. They are not exercised.
- `ChatInterface.tsx` itself never calls `loadMoreMessages`, so its loading indicator is not modelled. Scrolling and textarea auto-height are left out too.
- Chat.OlderMessages: one clock reading `now` dates the whole batch. The source reads `Date.now()` again for each of the ten messages, so its timestamps can differ by the milliseconds that pass while the batch is built.
- Chat.ChatStore.AddChatroom: the new room's id is a parameter. That `generateId` never repeats an id is not modelled, so the store does not promise distinct ids. `Dashboard.GuardedDeleteKeepsARoom` and `Dashboard.RecheckedDelete` take distinct ids as a hypothesis.
- `ChatInterface.SubmitsOnKey` transcribes `e.key === "Enter" && !e.shiftKey` and has no contract of its own. What the key press does is stated by `ChatInterface.ChatPane.HandleKeyPress`.
- The logout confirmation in the dashboard is a toast around `Auth.AuthStore.Logout`, followed by routing.
- Toasts other than the delete confirmation, JSX rendering, class names and `FileReader` are left out. Router calls become the `location` field. The file reader becomes the data URL parameter. The clipboard becomes a success flag.
- `src/app/page.tsx`, `src/app/layout.tsx`, `src/components/ui/Input.tsx` and `src/components/ui/Skeleton.tsx` hold presentation only.

## Findings

| source | as written | input that shows it | evidently intended | confidence | as-written member | corrected member |
|---|---|---|---|---|---|---|
| src/components/dashboard/Dashboard.tsx:94-105 | the room-count guard runs when the trash button is clicked; the confirmation's action later deletes without checking again | two rooms A and B; click delete on A, then on B (both guards see two rooms); confirm both toasts: no room is left | at least one chatroom always exists, so the last one is never deleted | medium, not executed | `Dashboard.DashboardView.ConfirmDelete`, with `Dashboard.TwoConfirmedDeletesEmptyTheList` | `Dashboard.RecheckedDelete` |
