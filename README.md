# E-Net chat client: conversation and user state in Dafny

This project models the client-side state of the E-Net chat web client and
proves properties of that model. It covers:

- the three Redux slices:
  - `chat`: per-conversation message lists, per-conversation metadata (name,
    unread counter) and the selected conversation;
  - `user`: the current profile, a loading flag and an error message;
  - `app`: the theme and the sidebar flag;
- the chat page's own copy of the conversation state, with its handlers:
  send, the simulated reply, open, the conversation menu, create, add
  friend, the sidebar list and the friend filter;
- the profile dialog's avatar check and its save handler.

The slices and the page's handlers update state in place. Each is a
`class` whose methods change its fields and state the whole new state in
their `ensures`:

- `ChatSlice.ChatStore`, `UserSlice.UserStore` and `AppSlice.AppStore`;
- `ChatPage.Chat` and `ProfileModal.ProfileDialog`.

On the chat page, each handler is specified by a pure transition on
`ChatPage.PageState`. The properties are proved about those transitions.
The sidebar list and the friend filter are pure functions.

The page depends on key order, because `Object.keys(conversationsMeta)`
decides two things: the sidebar order and the conversation selected after
a delete. For this reason every metadata record carries its key list
beside it. `JsKeys` models the ordinary-object key order of ECMAScript
(OrdinaryOwnPropertyKeys, section 10.1.11.1 of ECMA-262):

- array-index keys come first, in ascending numeric order;
- then all other keys, in insertion order.

An id made by `Date.now().toString()` is larger than 2^32 − 2. It is
therefore never an array index, and it is listed last (`JsKeys.InsertTimestampKey`).

`JsString` holds the string operations the handlers use:

- `trim`, over the full WhiteSpace and LineTerminator set;
- ASCII `toLowerCase`;
- `includes`;
- `Number.prototype.toString` on naturals.

Modules: `Wrappers` (Option), `JsString`, `JsKeys`, `MessageLists`,
`ChatSlice`, `UserSlice`, `AppSlice`, `ProfileModal`, `ChatPage`.

Inputs the program takes from the browser become parameters:

- `Date.now()` is a `nat`, and `new Date()` is an `int` or an ISO string;
- the FileReader result is a data-URL string;
- form validation is an `Option` of the validated values;
- the translated reply text is a string.

The code is looser than one might expect in these places, and the model follows the code:

- `createConversation` in the `chat` slice does not check that the id is fresh. An existing id is overwritten (`ChatSlice.ChatStore.CreateConversation`).
- `updateProfile` takes any partial profile, including `id` and `username`. A username is therefore not immutable (`UserSlice.MergeGet`).
- The chat page starts with conversation "1" selected. The slice starts with ''.
- Opening or marking an id that has no metadata creates a metadata entry that has no name. The sidebar list then fails (`ChatPage.ConversationsListFails`). The model gives these entries `name: None`.

## Model

| member | source | states |
|---|---|---|
| JsString.IsTrimmable | src/pages/Chat.tsx:218 | space, tab, LF and CR are stripped by trim; no visible ASCII character is |
| JsString.FirstKept | src/pages/Chat.tsx:218 | the scan start of trim: every character it skips is trimmable, and it stops at a kept character or at the end |
| JsString.LastKept | src/pages/Chat.tsx:218 | the scan end of trim: every character it skips is trimmable, and it stops after a kept character or at the start |
| JsString.Trim | src/pages/Chat.tsx:221 | the trimmed text is never longer than the input and holds only characters of the input |
| JsString.TrimEmptyIff | src/pages/Chat.tsx:218 | `!s.trim()` holds exactly when every character of `s` is white space or a line terminator |
| JsString.TrimShape | src/pages/Chat.tsx:221 | the trimmed text is a contiguous slice of the input, and everything cut from either end is trimmable |
| JsString.TrimEnds | src/pages/Chat.tsx:221 | neither end of a non-empty trimmed text is trimmable |
| JsString.TrimNoop | src/pages/Chat.tsx:221 | a string with no trimmable character at either end is its own trim |
| JsString.Lower | src/pages/Chat.tsx:281 | lower-casing keeps the length |
| JsString.Contains | src/pages/Chat.tsx:281 | a string includes only strings that are no longer than itself |
| JsString.ContainsIff | src/pages/Chat.tsx:281 | `s.includes(t)` holds exactly when `t` is a prefix of some suffix of `s`, in both directions |
| JsString.NatToString | src/pages/Chat.tsx:220 | `n.toString()` is a non-empty string of decimal digits |
| JsString.NatToStringCanonical | src/pages/Chat.tsx:220 | `n.toString()` is a canonical decimal string whose value is `n` |
| JsString.CanonicalRoundTrip | src/store/slices/chatSlice.ts:69 | a canonical decimal key is the toString of its value, which is the inverse direction |
| JsString.NatToStringArrayIndex | src/pages/Chat.tsx:913 | `n.toString()` is an array-index key exactly when n <= 2^32 − 2 |
| JsKeys.InsertKey | src/store/slices/chatSlice.ts:74 | after the assignment the key is listed; the list grows by one exactly when the key is new |
| JsKeys.RemoveKey | src/store/slices/chatSlice.ts:67 | after `delete` the key is no longer listed, and the list does not grow |
| JsKeys.FirstOrEmpty | src/store/slices/chatSlice.ts:69 | the first key of Object.keys is a listed key, or '' when there is none |
| JsKeys.InsertKeyShape | src/store/slices/chatSlice.ts:74 | assigning a key keeps the index keys first, ascending and without duplicates; it adds exactly that key; the keys already listed keep their relative order; a new key that is not an array index goes last |
| JsKeys.InsertTimestampKey | src/pages/Chat.tsx:913-914 | a fresh key made from a Date.now() value goes to the end of Object.keys |
| JsKeys.RemoveKeyShape | src/store/slices/chatSlice.ts:67 | `delete` keeps the key list in Object.keys order, removes exactly that key and keeps the other keys in the same relative order |
| JsKeys.RemoveInsertRoundTrip | src/store/slices/chatSlice.ts:65-76 | deleting a freshly assigned key restores the key list exactly |
| MessageLists.Appended | src/store/slices/chatSlice.ts:45-51 | appending one message: the record gains the id if it was missing; the other lists are unchanged; the list is one longer; the old messages form its prefix; the new message is last |
| MessageLists.AppendOrder | src/pages/Chat.tsx:226-238 | two appends to one list leave the old messages and then the two new ones, in call order |
| ChatSlice.FallbackSelection | src/store/slices/chatSlice.ts:68-70 | deleting another id keeps the selection; deleting the selected id selects a remaining key, or '' when none remains |
| ChatSlice.FallbackNeverDeleted | src/store/slices/chatSlice.ts:65-71 | after a delete, the selection is never the deleted id (except ''); it is the old selection, '' or a remaining key |
| ChatSlice.BumpUnread | src/store/slices/chatSlice.ts:60-64 | markAsUnread adds exactly 1 when the entry exists and changes nothing else, otherwise nothing at all |
| ChatSlice.ClearUnread | src/store/slices/chatSlice.ts:55-59 | markAsRead sets the counter to 0 when the entry exists, keeps the name and changes nothing else |
| ChatSlice.ClearUnreadIdempotent | src/store/slices/chatSlice.ts:55-59 | marking as read twice equals marking once |
| ChatSlice.BumpUnreadNonNegative | src/store/slices/chatSlice.ts:60-64 | markAsUnread keeps every counter non-negative |
| ChatSlice.ChatStore.constructor | src/store/slices/chatSlice.ts:23-33 | initial state: the two seeded conversations with their key order ["1","2"]; no selection; Valid and the key sets paired |
| ChatSlice.ChatStore.SetSelectedConv | src/store/slices/chatSlice.ts:39-44 | records the id, even an unknown one; zeroes its counter if the entry exists; creates no entry |
| ChatSlice.ChatStore.AddMessage | src/store/slices/chatSlice.ts:45-51 | appends one message to that list, creating the list if missing; metadata unchanged |
| ChatSlice.ChatStore.ClearConversation | src/store/slices/chatSlice.ts:52-54 | the list becomes empty, even without metadata; metadata unchanged |
| ChatSlice.ChatStore.MarkAsRead | src/store/slices/chatSlice.ts:55-59 | metadata becomes ClearUnread of the old metadata; nothing else changes |
| ChatSlice.ChatStore.MarkAsUnread | src/store/slices/chatSlice.ts:60-64 | metadata becomes BumpUnread of the old metadata; the counters stay non-negative |
| ChatSlice.ChatStore.DeleteConversation | src/store/slices/chatSlice.ts:65-71 | removes the id from both records and from the key order; a deleted selection falls back to the first remaining key, never to the deleted id (unless that id is ''); the key sets stay paired |
| ChatSlice.ChatStore.CreateConversation | src/store/slices/chatSlice.ts:72-76 | the entry becomes {name, 0} and the list becomes empty, overwriting an existing id; the key is placed in Object.keys order; the key sets stay paired |
| ChatSlice.CreateThenDelete | src/store/slices/chatSlice.ts:65-76 | creating a fresh id and deleting it restores the metadata and the key order |
| ChatSlice.ScenarioKeys | src/store/slices/chatSlice.ts:69 | the concrete key orders of the scenario below |
| ChatSlice.DeleteSelectedScenario | src/store/slices/chatSlice.ts:65-76 | starting from the initial store plus a timestamp conversation: deleting the selected "1" selects "2"; re-creating "1" lists it first, so deleting the selected "2" then selects "1" |
| UserSlice.FieldsDetermine | src/store/slices/userSlice.ts:3-13 | two profiles that agree on every field are equal |
| UserSlice.Merge | src/store/slices/userSlice.ts:43 | an empty payload leaves the profile unchanged; a payload without `id` and `username` keys keeps the id and the username |
| UserSlice.MergeGet | src/store/slices/userSlice.ts:43 | the spread merge: every key in the payload takes the payload's value (id and username included); every other field keeps its value |
| UserSlice.Override | src/store/slices/userSlice.ts:43 | combining with an empty payload, on either side, gives the other payload |
| UserSlice.OverrideGet | src/store/slices/userSlice.ts:43 | combining payloads: the later payload wins for every key it has |
| UserSlice.MergeEmpty | src/store/slices/userSlice.ts:43 | an empty payload leaves the profile unchanged |
| UserSlice.MergeIdempotent | src/store/slices/userSlice.ts:43 | applying the same payload twice equals applying it once |
| UserSlice.MergeTwice | src/store/slices/userSlice.ts:41-45 | two updates in a row equal one update with the combined payload |
| UserSlice.MergeAvatarOnly | src/components/ProfileModal.tsx:76 | an avatar-only payload changes the avatar and no other field |
| UserSlice.Updated | src/store/slices/userSlice.ts:41-45 | there is a user afterwards exactly when there was one before; a field the payload lacks keeps its value |
| UserSlice.UserStore.constructor | src/store/slices/userSlice.ts:21-35 | initial user u1 / thien_tdk with the seeded fields; not loading; no error |
| UserSlice.UserStore.UpdateProfile | src/store/slices/userSlice.ts:41-45 | merges the payload into the current user; with no user, changes nothing; leaves the flags unchanged |
| UserSlice.UserStore.SetLoading | src/store/slices/userSlice.ts:46-48 | sets only the loading flag |
| UserSlice.UserStore.SetError | src/store/slices/userSlice.ts:49-51 | sets only the error |
| UserSlice.UserStore.Logout | src/store/slices/userSlice.ts:52-54 | removes the current user; leaves the flags unchanged |
| UserSlice.UpdateAfterLogout | src/store/slices/userSlice.ts:41-54 | after logout, updateProfile is a no-op |
| AppSlice.Toggled | src/store/slices/appSlice.ts:17-19 | the toggled theme is always the other one |
| AppSlice.ToggleInvolution | src/store/slices/appSlice.ts:17-19 | toggling twice restores the theme |
| AppSlice.AppStore.constructor | src/store/slices/appSlice.ts:8-11 | light theme, sidebar open |
| AppSlice.AppStore.ToggleTheme | src/store/slices/appSlice.ts:17-19 | switches the theme; the sidebar flag is unchanged |
| AppSlice.AppStore.SetSidebarOpen | src/store/slices/appSlice.ts:20-22 | sets the flag; the theme is unchanged |
| AppSlice.ToggleTwiceRestores | src/store/slices/appSlice.ts:17-22 | two toggles restore the theme; setting the sidebar flag twice equals setting it once |
| ProfileModal.CheckAvatar | src/components/ProfileModal.tsx:60-70 | wrong type exactly when the type is neither JPEG nor PNG; too large exactly when the type is right and size >= 2 MiB; accepted exactly when the type is right and size < 2 MiB |
| ProfileModal.ProfileDialog.constructor | src/components/ProfileModal.tsx:39 | the dialog starts not editing |
| ProfileModal.ProfileDialog.StartEditing | src/components/ProfileModal.tsx:139 | the edit button turns editing on |
| ProfileModal.ProfileDialog.BeforeUpload | src/components/ProfileModal.tsx:60-80 | never lets the widget upload; an accepted file changes the avatar through updateProfile; a rejected one changes nothing |
| ProfileModal.ProfileDialog.HandleSave | src/components/ProfileModal.tsx:49-58 | valid values are merged and editing ends; on a validation failure nothing is dispatched and editing stays as it was |
| ChatPage.InitialState | src/pages/Chat.tsx:187-195 | conversations "1" and "2" in both records; "1" selected; an empty draft; typing off |
| ChatPage.InitialStateValid | src/pages/Chat.tsx:187-195 | the page's initial state is valid, the key sets are paired, and the selected "1" exists |
| ChatPage.Sent | src/pages/Chat.tsx:217-228 | the state changes exactly when the trimmed draft is non-empty; the metadata, the key order and the selection never change; the records stay paired when the selection has an entry |
| ChatPage.Replied | src/pages/Chat.tsx:229-239 | typing turns off; the metadata, the key order and the selection are kept; the target's list, created if missing, grows by one and no list disappears |
| ChatPage.SendBlankIsNoop | src/pages/Chat.tsx:218 | a blank or whitespace-only draft changes no state |
| ChatPage.SendAppendsTrimmed | src/pages/Chat.tsx:217-228 | otherwise exactly one message is appended to the selected list: the trimmed draft, sent as "You" and mine; the draft is cleared and typing is on; nothing else changes |
| ChatPage.ReplyGoesToSendTimeConversation | src/pages/Chat.tsx:217-239 | the reply goes to the conversation selected at send time, even after another one was opened; the user's message comes first and the reply second; the other list is untouched; typing turns off |
| ChatPage.ReplyAfterDeleteLeavesOrphan | src/pages/Chat.tsx:229-239 | a reply to a deleted conversation re-creates its list without metadata |
| ChatPage.UnreadOf | src/pages/Chat.tsx:266 | the old counter is 0 without an entry, and never negative when no counter is |
| ChatPage.WithUnread | src/pages/Chat.tsx:252 | the id has an entry with the given counter and is listed; every existing name is kept; the lists and the selection are unchanged |
| ChatPage.Opened | src/pages/Chat.tsx:249-253 | the id is selected and its counter is 0; the lists and the draft are unchanged |
| ChatPage.Cleared | src/pages/Chat.tsx:257-259 | the list of the id is empty, even for an id without metadata; every other list, the metadata and the selection are kept |
| ChatPage.StaleFallback | src/pages/Chat.tsx:272 | deleting another id keeps the selection; deleting the selected id while it is listed first keeps it selected |
| ChatPage.Deleted | src/pages/Chat.tsx:269-273 | the id leaves both records; a selection of another id is kept |
| ChatPage.Acted | src/pages/Chat.tsx:255-274 | an unknown action changes nothing; 'open' selects the id; 'delete' removes it from both records; only 'clear' and 'delete' touch the lists; the other actions keep the metadata keys when the id has an entry |
| ChatPage.WithUnreadShape | src/pages/Chat.tsx:249-268 | setting a counter keeps the state valid; only that entry changes; an existing name stays, and a new entry has no name; a new key is placed in Object.keys order: the old keys keep their relative order, and a new id that is not an array index goes last |
| ChatPage.MarkReadIdempotent | src/pages/Chat.tsx:261-264 | 'markRead' twice equals 'markRead' once |
| ChatPage.MarkUnreadCounts | src/pages/Chat.tsx:265-268 | 'markUnread' sets the counter to (the old counter, or 0) + 1 |
| ChatPage.DeletedShape | src/pages/Chat.tsx:269-273 | 'delete' removes the id from both records and from the key order; every other metadata entry and message list is kept, and so are the key order, the draft, typing and the dialog inputs; the key sets stay paired |
| ChatPage.StaleFallbackDangles | src/pages/Chat.tsx:272 | deleting the selected conversation while it is listed first leaves it selected although it no longer exists |
| ChatPage.StaleFallbackExample | src/pages/Chat.tsx:187-195 | on the initial page, deleting "1" keeps "1" selected, while the intended deletion selects "2" |
| ChatPage.DeletedIntended | src/pages/Chat.tsx:269-273 | the corrected delete removes the id from the metadata and never leaves it selected (unless that id is '') |
| ChatPage.DeletedIntendedShape | src/pages/Chat.tsx:269-273 | the corrected delete never leaves the deleted id selected (unless that id is ''); it selects the first remaining conversation or '' |
| ChatPage.LastText | src/pages/Chat.tsx:277-278 | a non-empty preview means the conversation has a message |
| ChatPage.LastTextAfterAppend | src/pages/Chat.tsx:226-238 | after a message is appended, the sidebar previews that message's text |
| ChatPage.LastTextAfterSend | src/pages/Chat.tsx:217-228 | after a non-blank send, the sidebar previews the trimmed draft in the selected conversation |
| ChatPage.Keep | src/pages/Chat.tsx:280-285 | every chip keeps only names that contain the search text, both lower-cased; 'unread' keeps only entries with unread messages; 'groups' keeps only names that contain "group" when lower-cased |
| ChatPage.ConversationsList | src/pages/Chat.tsx:276-285 | the list never has more entries than there are keys |
| ChatPage.ConversationsListFails | src/pages/Chat.tsx:276-285 | the sidebar list fails exactly when some entry has no name |
| ChatPage.ConversationsListSpec | src/pages/Chat.tsx:276-285 | with every entry named: the ids are a subsequence of the metadata keys; each summary carries its name, counter and last text; a key is listed exactly when the search and chip filters keep it |
| ChatPage.IdsMembers | src/pages/Chat.tsx:276-278 | the listed ids are the ids of the summaries |
| ChatPage.ExampleKeeps | src/pages/Chat.tsx:279-284 | with an empty search, 'unread' keeps only A (2 unread) and 'groups' keeps only "Group C" among A, B and "Group C" |
| ChatPage.FilterExampleUnread | src/pages/Chat.tsx:276-285 | for A (2 unread), B and "Group C", the 'unread' chip lists A only |
| ChatPage.FilterExampleGroups | src/pages/Chat.tsx:276-285 | for the same three, the 'groups' chip lists "Group C" only |
| ChatPage.Created | src/pages/Chat.tsx:911-919 | the state changes exactly when the trimmed name is non-empty; then the new id has an entry and is selected, and the input is cleared |
| ChatPage.CreateBlankIsNoop | src/pages/Chat.tsx:912 | a blank conversation name changes no state |
| ChatPage.CreatedShape | src/pages/Chat.tsx:911-919 | a named conversation gets {trimmed name, 0} and an empty list; it is selected and the input is cleared; every other entry and list, the relative key order, the draft, typing and the friend query are kept; the state stays valid and paired; a timestamp id is listed last |
| ChatPage.AddEntryValid | src/pages/Chat.tsx:914 | adding one entry, with its key in Object.keys order, keeps the state valid |
| ChatPage.MatchingNames | src/pages/Chat.tsx:954-955 | the filter never returns more names than it is given |
| ChatPage.NotFoundShown | src/pages/Chat.tsx:982 | when "not found" is shown, no name is suggested |
| ChatPage.MatchingNamesSpec | src/pages/Chat.tsx:954-955 | the friend filter keeps, in order, exactly the names that contain the query when both are lower-cased, each as many times as it occurs in the input |
| ChatPage.EmptyQueryMatchesAll | src/pages/Chat.tsx:955 | an empty query keeps every name |
| ChatPage.SuggestionsAndNotFound | src/pages/Chat.tsx:954-982 | an empty query suggests all five names; "not found" is shown exactly when the query is non-empty and no name is suggested |
| ChatPage.FriendAdded | src/pages/Chat.tsx:967-976 | exactly the new id joins the metadata; the selection and the query are kept |
| ChatPage.FriendAddedShape | src/pages/Chat.tsx:967-976 | adding a suggested friend creates {name, 1} with the single greeting `Hi <name>!` sent by that friend, not mine; the selection stays; every other entry and list, the relative key order, the draft, typing and both dialog inputs are kept; the state stays valid and paired |
| ChatPage.SuggestionIsSuggested | src/pages/Chat.tsx:954-955 | every suggestion shown is one of the five suggested names |
| ChatPage.Chat.constructor | src/pages/Chat.tsx:187-195 | the component starts in the initial page state |
| ChatPage.Chat.SendMessage | src/pages/Chat.tsx:217-240 | the new state is the send transition; the reply target is the conversation selected at send time, or none when nothing was sent |
| ChatPage.Chat.DeliverReply | src/pages/Chat.tsx:229-239 | the new state is the reply transition |
| ChatPage.Chat.OpenConversation | src/pages/Chat.tsx:249-253 | the id is selected and its counter is 0 |
| ChatPage.Chat.SetUnread | src/pages/Chat.tsx:261-268 | the counter update shared by 'open', 'markRead' and 'markUnread' |
| ChatPage.Chat.HandleConversationAction | src/pages/Chat.tsx:255-274 | the new state is the menu transition for the five keys; any other key is a no-op |
| ChatPage.Chat.ClearSelected | src/pages/Chat.tsx:777 | the details-panel button empties the selected list |
| ChatPage.Chat.CreateConversation | src/pages/Chat.tsx:911-919 | the new state is the create transition |
| ChatPage.Chat.AddFriend | src/pages/Chat.tsx:967-976 | the new state is the add-friend transition |
| ChatPage.SendReplyScenario | src/pages/Chat.tsx:217-240 | sending "hello" in "1" gives two messages, the second the user's own; the reply gives three, the third from "Bot"; typing is on before the reply and off after it |

## Left out

- Rendering, JSX, antd widgets, icons, CSS, the emoji picker, toasts (`message.*`) and the UI flags (`showDetails`, `showNewConv`, `showFind`, `activeTab`, …). They are presentation only.
- The 900 ms timer. The reply is a separate call, `ChatPage.Chat.DeliverReply`, made with the conversation `SendMessage` returned. Concurrency and interleaving are not modelled, apart from other handlers called between the two.
- `Date.now()` and `new Date()` are not modelled. They are parameters.
- Theme persistence through `localStorage` and `document.documentElement`. This is browser I/O.
- `FileReader` is not modelled. An accepted file's data URL is a parameter, and the read is treated as completing at once.
- i18n is not modelled. The translated reply text is a parameter.
- Login, Register, App, main and the store wiring. They contain routing and form plumbing, with no state logic.
- The input bindings (`setNewMessage`, `setNewConvName`, `setFriendQuery`, `setSearch`, `setFilterChip`) are plain field assignments. The search text and chip are arguments of `ConversationsList`.
- JsString.Lower: only ASCII letters are lower-cased. Unicode case mapping is out of scope.
- UserSlice.MergeGet: a payload key explicitly set to `undefined` is treated like an absent key. The model does not distinguish the two.
- ChatSlice.Meta: the optional `avatar` of the conversation metadata is never read or written by the modelled code, and it is not modelled.
- ChatPage.Chat.AddFriend: the two `Date.now()` calls are separate parameters. The model does not state that they are usually equal.
- ChatSlice.ChatStore.constructor: one timestamp serves both seeded messages, where the source calls `new Date()` once for each.
- ChatPage.InitialState: one timestamp serves both seeded messages, where the source calls `new Date()` once for each.
- The sidebar's crash on a nameless entry is modelled as `None`. What React does after the exception is out of scope.
- JsString.NatToString: JavaScript numbers become unbounded naturals. `Number.prototype.toString` switches to exponent notation from 1e21, and the model does not. Date.now() values are far below that bound.
- ChatSlice.BumpUnread: the counters are unbounded integers. In JavaScript, `unread += 1` stops changing at 2^53, a count no user can reach by clicking. The same holds for `ChatPage.UnreadOf`.

## Findings

| source | as written | input that shows it | evidently intended | confidence | as-written member | corrected member |
|---|---|---|---|---|---|---|
| src/pages/Chat.tsx:272 | after deleting the selected conversation, the new selection is the first key of the metadata as it was before the delete, which can be the deleted id | initial page, menu action 'delete' on the selected "1": "1" stays selected although "2" remains | select the first conversation that remains, or '' (as the slice reducer at src/store/slices/chatSlice.ts:69 does) | not executed | ChatPage.StaleFallbackExample | ChatPage.DeletedIntendedShape |
