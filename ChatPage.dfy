/** The chat page's own copy of the conversation state (it does not use
    the Redux slice): message lists, metadata, the selected conversation,
    the message being typed, the typing indicator, and the inputs of the
    "new conversation" and "find friends" dialogs. Each handler is a
    transition on `PageState`; the `Chat` class holds the state and
    applies them in place. */
module ChatPage {
  import opened Wrappers
  import opened JsString
  import opened JsKeys
  import opened MessageLists
  import ChatSlice

  datatype Message = Message(id: string, text: string, sender: string, timestamp: int, isMine: bool)

  /** A metadata entry. `name` is None for the entries that opening or
      marking an unknown id creates: `{ ...undefined, unread: n }` has no
      name. */
  datatype PageMeta = PageMeta(name: Option<string>, unread: int)

  datatype PageState = PageState(
    conversationsState: map<string, seq<Message>>,
    conversationsMeta: map<string, PageMeta>,
    metaKeys: seq<string>,
    selectedConv: string,
    newMessage: string,
    typing: bool,
    newConvName: string,
    friendQuery: string)

  /** `metaKeys` is Object.keys(conversationsMeta) and no counter is
      negative. */
  ghost predicate Valid(s: PageState) {
    && KeysOf(s.metaKeys, s.conversationsMeta)
    && forall id :: id in s.conversationsMeta ==> s.conversationsMeta[id].unread >= 0
  }

  /** Every conversation has both a metadata entry and a message list. */
  ghost predicate Paired(s: PageState) {
    s.conversationsState.Keys == s.conversationsMeta.Keys
  }

  /** The state the page starts in; `at` is the time of the two seeded
      messages. */
  function InitialState(at: int): (r: PageState)
    ensures r.conversationsMeta.Keys == r.conversationsState.Keys == {"1", "2"}
    ensures r.selectedConv == "1" && r.newMessage == "" && !r.typing
  {
    PageState(
      map[
        "1" := [Message("1", "Xin chào! Chào mừng bạn đến với E-Net Chat.", "Bot", at, false)],
        "2" := [Message("1", "Welcome to group chat! 🎉", "Alice", at, false)]],
      map["1" := PageMeta(Some("Bot Support"), 2), "2" := PageMeta(Some("Group Chat"), 0)],
      ["1", "2"], "1", "", false, "", "")
  }

  lemma InitialStateValid(at: int)
    ensures Valid(InitialState(at)) && Paired(InitialState(at))
    ensures InitialState(at).selectedConv in InitialState(at).conversationsMeta
  {
    assert IsArrayIndex("1") && IsArrayIndex("2");
  }

  // ---------------------------------------------------------------------
  // Sending and the simulated reply
  // ---------------------------------------------------------------------

  /** sendMessage: a blank draft changes nothing; otherwise the trimmed
      text is appended to the selected conversation as the user's own
      message, the draft is cleared and the typing indicator shown. */
  function Sent(s: PageState, now: nat, at: int): (r: PageState)
    ensures r == s <==> Trim(s.newMessage) == []
    ensures r.conversationsMeta == s.conversationsMeta && r.metaKeys == s.metaKeys && r.selectedConv == s.selectedConv
    ensures Paired(s) && s.selectedConv in s.conversationsMeta ==> Paired(r)
  {
    var text := Trim(s.newMessage);
    if text == [] then s
    else
      s.(conversationsState := Appended(s.conversationsState, s.selectedConv, Message(NatToString(now), text, "You", at, true)),
         newMessage := "",
         typing := true)
  }

  /** The timer callback of sendMessage: hides the typing indicator and
      appends the canned reply to `convId`, the conversation that was
      selected when the message was sent. */
  function Replied(s: PageState, convId: string, now: nat, at: int, replyText: string): (r: PageState)
    ensures !r.typing
    ensures r.conversationsMeta == s.conversationsMeta && r.metaKeys == s.metaKeys && r.selectedConv == s.selectedConv
    ensures r.conversationsState.Keys == s.conversationsState.Keys + {convId}
    ensures |ListOf(r.conversationsState, convId)| == |ListOf(s.conversationsState, convId)| + 1
  {
    s.(typing := false,
       conversationsState := Appended(s.conversationsState, convId, Message(NatToString(now + 1), replyText, "Bot", at, false)))
  }

  /** A draft of whitespace only (or nothing) sends nothing. */
  lemma SendBlankIsNoop(s: PageState, now: nat, at: int)
    requires forall i :: 0 <= i < |s.newMessage| ==> IsTrimmable(s.newMessage[i])
    ensures Sent(s, now, at) == s
  {
    TrimEmptyIff(s.newMessage);
  }

  /** A draft with some visible character appends exactly one message,
      the trimmed draft sent as "You", to the end of the selected
      conversation; only the lists, the draft and the indicator change. */
  lemma SendAppendsTrimmed(s: PageState, now: nat, at: int)
    requires exists i :: 0 <= i < |s.newMessage| && !IsTrimmable(s.newMessage[i])
    ensures var r := Sent(s, now, at);
      var m := Message(NatToString(now), Trim(s.newMessage), "You", at, true);
      && r.conversationsState[s.selectedConv] == ListOf(s.conversationsState, s.selectedConv) + [m]
      && (forall k :: k in s.conversationsState && k != s.selectedConv ==> r.conversationsState[k] == s.conversationsState[k])
      && r.conversationsState.Keys == s.conversationsState.Keys + {s.selectedConv}
      && r == s.(conversationsState := r.conversationsState, newMessage := "", typing := true)
    ensures var text := Trim(s.newMessage);
      |text| > 0 && !IsTrimmable(text[0]) && !IsTrimmable(text[|text| - 1])
  {
    TrimEmptyIff(s.newMessage);
    TrimEnds(s.newMessage);
  }

  /** The reply goes to the conversation selected at send time even when
      the user has opened another one meanwhile, and it hides the typing
      indicator there too. */
  lemma ReplyGoesToSendTimeConversation(s: PageState, other: string, now: nat, later: nat, at: int, at2: int, replyText: string)
    requires Trim(s.newMessage) != []
    ensures var s3 := Replied(Opened(Sent(s, now, at), other), s.selectedConv, later, at2, replyText);
      && s3.conversationsState[s.selectedConv] == ListOf(s.conversationsState, s.selectedConv)
           + [Message(NatToString(now), Trim(s.newMessage), "You", at, true),
              Message(NatToString(later + 1), replyText, "Bot", at2, false)]
      && (other != s.selectedConv ==> ListOf(s3.conversationsState, other) == ListOf(s.conversationsState, other))
      && s3.selectedConv == other && !s3.typing
  {
    var sent := Message(NatToString(now), Trim(s.newMessage), "You", at, true);
    var bot := Message(NatToString(later + 1), replyText, "Bot", at2, false);
    AppendOrder(s.conversationsState, s.selectedConv, sent, bot);
  }

  /** A reply whose conversation was deleted before the timer fired
      re-creates a message list for it without metadata. */
  lemma ReplyAfterDeleteLeavesOrphan(s: PageState, convId: string, now: nat, at: int, replyText: string)
    ensures var r := Replied(Acted(s, convId, "delete"), convId, now, at, replyText);
      && convId !in r.conversationsMeta
      && r.conversationsState[convId] == [Message(NatToString(now + 1), replyText, "Bot", at, false)]
      && !Paired(r)
  {
  }

  // ---------------------------------------------------------------------
  // Opening a conversation and the per-conversation menu
  // ---------------------------------------------------------------------

  /** `prev[id]?.unread || 0`. */
  function UnreadOf(meta: map<string, PageMeta>, id: string): (n: int)
    ensures id !in meta ==> n == 0
    ensures (forall k :: k in meta ==> meta[k].unread >= 0) ==> n >= 0
  {
    if id in meta then meta[id].unread else 0
  }

  /** `{ ...prev, [id]: { ...prev[id], unread: n } }`: sets the counter,
      keeps the name if there is an entry, and creates a nameless entry
      otherwise. */
  function WithUnread(s: PageState, id: string, n: int): (r: PageState)
    ensures id in r.conversationsMeta && r.conversationsMeta[id].unread == n && id in r.metaKeys
    ensures forall k :: k in s.conversationsMeta ==> k in r.conversationsMeta && r.conversationsMeta[k].name == s.conversationsMeta[k].name
    ensures r.conversationsState == s.conversationsState && r.selectedConv == s.selectedConv
  {
    var name := if id in s.conversationsMeta then s.conversationsMeta[id].name else None;
    s.(conversationsMeta := s.conversationsMeta[id := PageMeta(name, n)],
       metaKeys := InsertKey(s.metaKeys, id))
  }

  /** openConversation: selects `id` and zeroes its counter. */
  function Opened(s: PageState, id: string): (r: PageState)
    ensures r.selectedConv == id && id in r.conversationsMeta && r.conversationsMeta[id].unread == 0
    ensures r.conversationsState == s.conversationsState && r.newMessage == s.newMessage
  {
    WithUnread(s, id, 0).(selectedConv := id)
  }

  /** 'clear': the list of `id` becomes empty. */
  function Cleared(s: PageState, id: string): (r: PageState)
    ensures id in r.conversationsState && r.conversationsState[id] == [] && r.conversationsState.Keys == s.conversationsState.Keys + {id}
    ensures forall k :: k in s.conversationsState && k != id ==> r.conversationsState[k] == s.conversationsState[k]
    ensures r.conversationsMeta == s.conversationsMeta && r.selectedConv == s.selectedConv
  {
    s.(conversationsState := s.conversationsState[id := []])
  }

  /** The selection 'delete' leaves: computed from the key list BEFORE
      the deletion, so the first key may be the deleted one. */
  function StaleFallback(keysBefore: seq<string>, selected: string, id: string): (r: string)
    ensures selected != id ==> r == selected
    ensures selected == id && |keysBefore| > 0 && keysBefore[0] == id ==> r == id
  {
    if selected == id then FirstOrEmpty(keysBefore) else selected
  }

  /** 'delete': removes `id` from both records and picks the stale
      fallback when `id` was selected. */
  function Deleted(s: PageState, id: string): (r: PageState)
    ensures r.conversationsMeta.Keys == s.conversationsMeta.Keys - {id}
    ensures r.conversationsState.Keys == s.conversationsState.Keys - {id}
    ensures s.selectedConv != id ==> r.selectedConv == s.selectedConv
  {
    s.(conversationsState := s.conversationsState - {id},
       conversationsMeta := s.conversationsMeta - {id},
       metaKeys := RemoveKey(s.metaKeys, id),
       selectedConv := StaleFallback(s.metaKeys, s.selectedConv, id))
  }

  /** handleConversationAction: dispatch on the menu key; any other key
      does nothing. */
  function Acted(s: PageState, id: string, action: string): (r: PageState)
    ensures action !in {"open", "clear", "markRead", "markUnread", "delete"} ==> r == s
    ensures action == "open" ==> r.selectedConv == id
    ensures action == "delete" ==> id !in r.conversationsMeta && id !in r.conversationsState
    ensures action != "clear" && action != "delete" ==> r.conversationsState == s.conversationsState
    ensures action != "delete" ==> id in s.conversationsMeta ==> r.conversationsMeta.Keys == s.conversationsMeta.Keys
  {
    if action == "open" then Opened(s, id)
    else if action == "clear" then Cleared(s, id)
    else if action == "markRead" then WithUnread(s, id, 0)
    else if action == "markUnread" then WithUnread(s, id, UnreadOf(s.conversationsMeta, id) + 1)
    else if action == "delete" then Deleted(s, id)
    else s
  }

  /** Setting a counter keeps the state valid, changes only that entry's
      counter (its name stays, or is absent for a new entry), lists a new
      id in Object.keys order (the old keys keep their relative order, and
      a new id that is not an array index goes last) and leaves the
      message lists alone. */
  lemma WithUnreadShape(s: PageState, id: string, n: int)
    requires Valid(s) && n >= 0
    ensures var r := WithUnread(s, id, n);
      && Valid(r)
      && r.conversationsMeta.Keys == s.conversationsMeta.Keys + {id}
      && r.conversationsMeta[id].unread == n
      && r.conversationsMeta[id].name == (if id in s.conversationsMeta then s.conversationsMeta[id].name else None)
      && (forall k :: k in s.conversationsMeta && k != id ==> r.conversationsMeta[k] == s.conversationsMeta[k])
      && (id in s.conversationsMeta ==> r.metaKeys == s.metaKeys)
      && Subsequence(s.metaKeys, r.metaKeys)
      && (id !in s.conversationsMeta && !IsArrayIndex(id) ==> r.metaKeys == s.metaKeys + [id])
      && r.conversationsState == s.conversationsState && r.selectedConv == s.selectedConv
  {
    InsertKeyShape(s.metaKeys, id);
  }

  /** Marking as read twice is marking as read once. */
  lemma MarkReadIdempotent(s: PageState, id: string)
    requires Valid(s)
    ensures Acted(Acted(s, id, "markRead"), id, "markRead") == Acted(s, id, "markRead")
  {
    InsertKeyShape(s.metaKeys, id);
  }

  /** 'markUnread' sets the counter to the old one (0 without an
      entry) plus one. */
  lemma MarkUnreadCounts(s: PageState, id: string)
    requires Valid(s)
    ensures var r := Acted(s, id, "markUnread");
      && Valid(r)
      && r.conversationsMeta[id].unread == UnreadOf(s.conversationsMeta, id) + 1 >= 1
  {
    WithUnreadShape(s, id, UnreadOf(s.conversationsMeta, id) + 1);
  }

  /** Deleting removes `id` from both records and from the key list,
      keeps every other entry, list and input and the relative key
      order, and keeps the records paired. */
  lemma DeletedShape(s: PageState, id: string)
    requires Valid(s)
    ensures var r := Deleted(s, id);
      && Valid(r)
      && id !in r.conversationsState && id !in r.conversationsMeta && id !in r.metaKeys
      && (forall k :: k in s.conversationsMeta && k != id ==> k in r.conversationsMeta && r.conversationsMeta[k] == s.conversationsMeta[k])
      && (forall k :: k in s.conversationsState && k != id ==> k in r.conversationsState && r.conversationsState[k] == s.conversationsState[k])
      && Subsequence(r.metaKeys, s.metaKeys)
      && (Paired(s) ==> Paired(r))
      && r.newMessage == s.newMessage && r.typing == s.typing
      && r.newConvName == s.newConvName && r.friendQuery == s.friendQuery
  {
    RemoveKeyShape(s.metaKeys, id);
  }

  /** The stale fallback re-selects the deleted conversation whenever it
      was selected and listed first. */
  lemma StaleFallbackDangles(s: PageState)
    requires Valid(s) && |s.metaKeys| > 0 && s.selectedConv == s.metaKeys[0]
    ensures var r := Deleted(s, s.selectedConv);
      r.selectedConv == s.selectedConv && r.selectedConv !in r.conversationsMeta
  {
  }

  /** The initial page shows the fault: deleting the selected "1" leaves
      "1" selected although "2" remains; the intended deletion selects
      "2". */
  lemma StaleFallbackExample(at: int)
    ensures var r := Acted(InitialState(at), "1", "delete");
      && r.selectedConv == "1" && "1" !in r.conversationsMeta
      && r.metaKeys == ["2"]
    ensures DeletedIntended(InitialState(at), "1").selectedConv == "2"
  {
    assert ["1", "2"][1..] == ["2"] && ["2"][1..] == [];
  }

  /** The evidently intended 'delete': the fallback is the first key that
      remains, as in the Redux slice's deleteConversation. */
  function DeletedIntended(s: PageState, id: string): (r: PageState)
    ensures r.conversationsMeta.Keys == s.conversationsMeta.Keys - {id}
    ensures r.selectedConv != id || id == ""
  {
    Deleted(s, id).(selectedConv := ChatSlice.FallbackSelection(RemoveKey(s.metaKeys, id), s.selectedConv, id))
  }

  /** The intended deletion never leaves the deleted conversation
      selected: the selection stays, or moves to the first remaining
      conversation, or becomes '' when none remains. */
  lemma DeletedIntendedShape(s: PageState, id: string)
    requires Valid(s)
    ensures var r := DeletedIntended(s, id);
      && Valid(r)
      && (r.selectedConv != id || id == "")
      && (s.selectedConv != id ==> r.selectedConv == s.selectedConv)
      && (s.selectedConv == id ==> r.selectedConv == FirstOrEmpty(r.metaKeys))
      && (s.selectedConv == id ==> r.selectedConv in r.conversationsMeta || r.metaKeys == [])
  {
    DeletedShape(s, id);
    ChatSlice.FallbackNeverDeleted(s.metaKeys, s.selectedConv, id);
    var keys := RemoveKey(s.metaKeys, id);
    if |keys| > 0 {
      assert keys[0] in keys;
    }
  }

  // ---------------------------------------------------------------------
  // The sidebar list
  // ---------------------------------------------------------------------

  datatype FilterChip = All | Unread | Groups

  datatype Summary = Summary(id: string, name: string, lastMessage: string, unread: int)

  /** The text of the last message of `id`, or '' when there is none. */
  function LastText(lists: map<string, seq<Message>>, id: string): (t: string)
    ensures t != "" ==> |ListOf(lists, id)| > 0
  {
    var msgs := ListOf(lists, id);
    if |msgs| > 0 then msgs[|msgs| - 1].text else ""
  }

  /** The sidebar previews the newest message: after an append, the
      last text is that message's text. */
  lemma LastTextAfterAppend(lists: map<string, seq<Message>>, id: string, m: Message)
    ensures LastText(Appended(lists, id, m), id) == m.text
  {
  }

  /** After a send, the sidebar previews the trimmed draft. */
  lemma LastTextAfterSend(s: PageState, now: nat, at: int)
    requires Trim(s.newMessage) != []
    ensures LastText(Sent(s, now, at).conversationsState, s.selectedConv) == Trim(s.newMessage)
  {
    LastTextAfterAppend(s.conversationsState, s.selectedConv, Message(NatToString(now), Trim(s.newMessage), "You", at, true));
  }

  /** The sidebar filter: the lower-cased name contains the lower-cased
      search; the 'unread' chip also wants unread messages, the 'groups'
      chip a name containing "group". */
  predicate Keep(name: string, unread: int, search: string, chip: FilterChip)
    ensures Keep(name, unread, search, chip) ==> Contains(Lower(name), Lower(search))
    ensures chip == Unread && Keep(name, unread, search, chip) ==> unread > 0
    ensures chip == Groups && Keep(name, unread, search, chip) ==> Contains(Lower(name), "group")
  {
    var matchSearch := Contains(Lower(name), Lower(search));
    match chip
    case Unread => matchSearch && unread > 0
    case Groups => matchSearch && Contains(Lower(name), "group")
    case All => matchSearch
  }

  /** conversationsList: one summary per metadata key, in key order,
      filtered by `Keep`. None when an entry has no name: the filter
      then calls toLowerCase on undefined and rendering throws. */
  function ConversationsList(keys: seq<string>, meta: map<string, PageMeta>, lists: map<string, seq<Message>>,
                             search: string, chip: FilterChip): (r: Option<seq<Summary>>)
    requires forall k :: k in keys ==> k in meta
    ensures r.Some? ==> |r.value| <= |keys|
    decreases |keys|
  {
    if |keys| == 0 then Some([])
    else
      var id := keys[0];
      match meta[id].name
      case None => None
      case Some(name) =>
        match ConversationsList(keys[1..], meta, lists, search, chip)
        case None => None
        case Some(rest) =>
          var c := Summary(id, name, LastText(lists, id), meta[id].unread);
          if Keep(name, c.unread, search, chip) then Some([c] + rest) else Some(rest)
  }

  function Ids(cs: seq<Summary>): seq<string> {
    if |cs| == 0 then [] else [cs[0].id] + Ids(cs[1..])
  }

  /** The list can be rendered exactly when every entry has a name. */
  lemma {:induction false} ConversationsListFails(keys: seq<string>, meta: map<string, PageMeta>, lists: map<string, seq<Message>>,
                                                  search: string, chip: FilterChip)
    requires forall k :: k in keys ==> k in meta
    ensures ConversationsList(keys, meta, lists, search, chip).None? <==> exists k :: k in keys && meta[k].name.None?
    decreases |keys|
  {
    if |keys| > 0 {
      ConversationsListFails(keys[1..], meta, lists, search, chip);
      assert forall k :: k in keys <==> k == keys[0] || k in keys[1..];
    }
  }

  /** With every entry named, the list holds, in key order, a summary of
      exactly those conversations the filter keeps: its name, unread
      count and last message text. */
  lemma {:induction false} ConversationsListSpec(keys: seq<string>, meta: map<string, PageMeta>, lists: map<string, seq<Message>>,
                                                 search: string, chip: FilterChip)
    requires forall k :: k in keys ==> k in meta && meta[k].name.Some?
    ensures var r := ConversationsList(keys, meta, lists, search, chip);
      && r.Some?
      && Subsequence(Ids(r.value), keys)
      && (forall c :: c in r.value ==>
            && c.id in keys && meta[c.id].name == Some(c.name) && c.unread == meta[c.id].unread
            && c.lastMessage == LastText(lists, c.id) && Keep(c.name, c.unread, search, chip))
      && (forall k :: k in keys ==> (k in Ids(r.value) <==> Keep(meta[k].name.value, meta[k].unread, search, chip)))
    decreases |keys|
  {
    if |keys| > 0 {
      var id := keys[0];
      ConversationsListSpec(keys[1..], meta, lists, search, chip);
      var rest := ConversationsList(keys[1..], meta, lists, search, chip).value;
      var name := meta[id].name.value;
      var c := Summary(id, name, LastText(lists, id), meta[id].unread);
      IdsMembers(rest);
      if Keep(name, c.unread, search, chip) {
        assert ([c] + rest)[1..] == rest;
        assert Ids([c] + rest) == [id] + Ids(rest);
        IdsMembers([c] + rest);
      }
      assert forall k :: k in keys <==> k == id || k in keys[1..];
    }
  }

  lemma {:induction false} IdsMembers(cs: seq<Summary>)
    ensures |Ids(cs)| == |cs|
    ensures forall k :: k in Ids(cs) <==> exists c :: c in cs && c.id == k
    decreases |cs|
  {
    if |cs| > 0 {
      IdsMembers(cs[1..]);
      assert forall c :: c in cs <==> c == cs[0] || c in cs[1..];
    }
  }

  /** Three named conversations: A with 2 unread messages, B, and
      "Group C". */
  const ExampleMeta: map<string, PageMeta> :=
    map["a" := PageMeta(Some("A"), 2), "b" := PageMeta(Some("B"), 0), "c" := PageMeta(Some("Group C"), 0)]

  /** Which of the three names each chip keeps, with an empty search. */
  lemma ExampleKeeps()
    ensures Keep("Group C", 0, "", Groups) && !Keep("B", 0, "", Groups) && !Keep("A", 2, "", Groups)
    ensures !Keep("Group C", 0, "", Unread) && !Keep("B", 0, "", Unread) && Keep("A", 2, "", Unread)
  {
    assert Lower("") == "" && Lower("A") == "a" && Lower("B") == "b" && Lower("Group C") == "group c";
    assert Contains("group c", "group");
    assert !Contains("a", "group") by { assert "a"[1..] == ""; }
    assert !Contains("b", "group") by { assert "b"[1..] == ""; }
  }

  /** The 'unread' chip lists A only. */
  lemma FilterExampleUnread()
    ensures ConversationsList(["a", "b", "c"], ExampleMeta, map[], "", Unread) == Some([Summary("a", "A", "", 2)])
  {
    ExampleKeeps();
    assert ["a", "b", "c"][1..] == ["b", "c"] && ["b", "c"][1..] == ["c"] && ["c"][1..] == [];
    var none: seq<Summary> := [];
    assert [Summary("a", "A", "", 2)] + none == [Summary("a", "A", "", 2)];
    assert ConversationsList([], ExampleMeta, map[], "", Unread) == Some([]);
    assert ConversationsList(["c"], ExampleMeta, map[], "", Unread) == Some([]);
    assert ConversationsList(["b", "c"], ExampleMeta, map[], "", Unread) == Some([]);
  }

  /** The 'groups' chip lists "Group C" only. */
  lemma FilterExampleGroups()
    ensures ConversationsList(["a", "b", "c"], ExampleMeta, map[], "", Groups) == Some([Summary("c", "Group C", "", 0)])
  {
    ExampleKeeps();
    assert ["a", "b", "c"][1..] == ["b", "c"] && ["b", "c"][1..] == ["c"] && ["c"][1..] == [];
    var none: seq<Summary> := [];
    assert [Summary("c", "Group C", "", 0)] + none == [Summary("c", "Group C", "", 0)];
    assert ConversationsList([], ExampleMeta, map[], "", Groups) == Some([]);
    assert ConversationsList(["c"], ExampleMeta, map[], "", Groups) == Some([Summary("c", "Group C", "", 0)]);
    assert ConversationsList(["b", "c"], ExampleMeta, map[], "", Groups) == Some([Summary("c", "Group C", "", 0)]);
  }

  // ---------------------------------------------------------------------
  // New conversation and find-friends dialogs
  // ---------------------------------------------------------------------

  /** The create button: a blank name is refused; otherwise a
      conversation named by the trimmed name, with no unread messages
      and an empty list, is created under the id `now`, selected, and
      the input cleared. */
  function Created(s: PageState, now: nat): (r: PageState)
    ensures r == s <==> Trim(s.newConvName) == []
    ensures r != s ==> r.selectedConv == NatToString(now) && NatToString(now) in r.conversationsMeta && r.newConvName == ""
  {
    var name := Trim(s.newConvName);
    if name == [] then s
    else
      var id := NatToString(now);
      s.(conversationsMeta := s.conversationsMeta[id := PageMeta(Some(name), 0)],
         metaKeys := InsertKey(s.metaKeys, id),
         conversationsState := s.conversationsState[id := []],
         selectedConv := id,
         newConvName := "")
  }

  lemma CreateBlankIsNoop(s: PageState, now: nat)
    requires forall i :: 0 <= i < |s.newConvName| ==> IsTrimmable(s.newConvName[i])
    ensures Created(s, now) == s
  {
    TrimEmptyIff(s.newConvName);
  }

  /** A named conversation is created and selected, the records stay
      paired and valid, every other entry, list and input is kept, and a
      timestamp id is listed last. */
  lemma CreatedShape(s: PageState, now: nat)
    requires Valid(s) && Trim(s.newConvName) != []
    ensures var r := Created(s, now);
      var id := NatToString(now);
      && Valid(r)
      && r.conversationsMeta[id] == PageMeta(Some(Trim(s.newConvName)), 0)
      && r.conversationsState[id] == []
      && r.selectedConv == id && r.newConvName == ""
      && (Paired(s) ==> Paired(r))
      && (forall k :: k in s.conversationsMeta && k != id ==> r.conversationsMeta[k] == s.conversationsMeta[k])
      && (forall k :: k in s.conversationsState && k != id ==> r.conversationsState[k] == s.conversationsState[k])
      && Subsequence(s.metaKeys, r.metaKeys)
      && (now > MaxArrayIndex && id !in s.conversationsMeta ==> r.metaKeys == s.metaKeys + [id])
      && r.newMessage == s.newMessage && r.typing == s.typing && r.friendQuery == s.friendQuery
  {
    var id := NatToString(now);
    var m := PageMeta(Some(Trim(s.newConvName)), 0);
    var t := s.(conversationsMeta := s.conversationsMeta[id := m], metaKeys := InsertKey(s.metaKeys, id),
                conversationsState := s.conversationsState[id := []]);
    assert Created(s, now) == t.(selectedConv := id, newConvName := "");
    AddEntryFrame(s, id, m, []);
    AddEntryValid(s, id, m);
    if now > MaxArrayIndex && id !in s.conversationsMeta {
      InsertTimestampKey(s.metaKeys, now);
    }
  }

  /** Adding or replacing one entry, with its key listed in Object.keys
      order, keeps the state valid. */
  lemma AddEntryValid(s: PageState, id: string, m: PageMeta)
    requires Valid(s) && m.unread >= 0
    ensures Valid(s.(conversationsMeta := s.conversationsMeta[id := m], metaKeys := InsertKey(s.metaKeys, id)))
  {
    InsertKeyShape(s.metaKeys, id);
  }

  /** Adding one entry and its list leaves every other entry and list
      and the relative key order alone. */
  lemma AddEntryFrame(s: PageState, id: string, m: PageMeta, msgs: seq<Message>)
    requires Valid(s)
    ensures var r := s.(conversationsMeta := s.conversationsMeta[id := m], metaKeys := InsertKey(s.metaKeys, id),
                        conversationsState := s.conversationsState[id := msgs]);
      && (forall k :: k in s.conversationsMeta && k != id ==> r.conversationsMeta[k] == s.conversationsMeta[k])
      && (forall k :: k in s.conversationsState && k != id ==> r.conversationsState[k] == s.conversationsState[k])
      && Subsequence(s.metaKeys, r.metaKeys)
  {
    InsertKeyShape(s.metaKeys, id);
  }

  /** The friends the dialog suggests. */
  const SuggestedNames: seq<string> := ["Alice", "Bob", "Charlie", "Linh", "Dat"]

  /** The names whose lower-cased form contains the lower-cased query,
      in order. */
  function MatchingNames(names: seq<string>, query: string): (r: seq<string>)
    ensures |r| <= |names|
    decreases |names|
  {
    if |names| == 0 then []
    else if Contains(Lower(names[0]), Lower(query)) then [names[0]] + MatchingNames(names[1..], query)
    else MatchingNames(names[1..], query)
  }

  function FriendSuggestions(query: string): seq<string> {
    MatchingNames(SuggestedNames, query)
  }

  /** The "not found" line: a non-empty query that no suggested name
      contains. */
  predicate NotFoundShown(query: string)
    ensures NotFoundShown(query) ==> FriendSuggestions(query) == []
  {
    MatchingNamesSpec(SuggestedNames, query);
    assert FriendSuggestions(query) != [] ==> FriendSuggestions(query)[0] in FriendSuggestions(query);
    query != "" && !(exists n :: n in SuggestedNames && Contains(Lower(n), Lower(query)))
  }

  /** The filter keeps, in order, exactly the names that match, each as
      many times as it occurs. */
  lemma {:induction false} MatchingNamesSpec(names: seq<string>, query: string)
    ensures Subsequence(MatchingNames(names, query), names)
    ensures forall n :: n in MatchingNames(names, query) <==> n in names && Contains(Lower(n), Lower(query))
    ensures forall n :: multiset(MatchingNames(names, query))[n] == if Contains(Lower(n), Lower(query)) then multiset(names)[n] else 0
    decreases |names|
  {
    if |names| > 0 {
      MatchingNamesSpec(names[1..], query);
      var rest := MatchingNames(names[1..], query);
      if Contains(Lower(names[0]), Lower(query)) {
        assert ([names[0]] + rest)[1..] == rest;
        assert multiset(MatchingNames(names, query)) == multiset{names[0]} + multiset(rest);
      }
      assert names == [names[0]] + names[1..];
      assert multiset(names) == multiset{names[0]} + multiset(names[1..]);
      assert forall n :: n in names <==> n == names[0] || n in names[1..];
    }
  }

  /** An empty query suggests everyone; "not found" is shown exactly when
      the query is non-empty and nothing is suggested. */
  lemma SuggestionsAndNotFound(query: string)
    ensures query == "" ==> FriendSuggestions(query) == SuggestedNames
    ensures NotFoundShown(query) <==> query != "" && FriendSuggestions(query) == []
  {
    MatchingNamesSpec(SuggestedNames, query);
    if FriendSuggestions(query) != [] {
      assert FriendSuggestions(query)[0] in FriendSuggestions(query);
    }
    if query == "" {
      assert Lower("") == "";
      EmptyQueryMatchesAll(SuggestedNames);
    }
  }

  lemma {:induction false} EmptyQueryMatchesAll(names: seq<string>)
    ensures MatchingNames(names, "") == names
    decreases |names|
  {
    if |names| > 0 {
      assert Lower("") == "";
      ContainsEmpty(Lower(names[0]));
      EmptyQueryMatchesAll(names[1..]);
      assert names == [names[0]] + names[1..];
    }
  }

  /** The add-friend button of a suggested `name`: a conversation named
      `name` with one unread greeting from that friend, created under the
      id `convNow`; the selection does not move. */
  function FriendAdded(s: PageState, name: string, convNow: nat, msgNow: nat, at: int): (r: PageState)
    requires name in FriendSuggestions(s.friendQuery)
    ensures r.conversationsMeta.Keys == s.conversationsMeta.Keys + {NatToString(convNow)}
    ensures r.selectedConv == s.selectedConv && r.friendQuery == s.friendQuery
  {
    var id := NatToString(convNow);
    s.(conversationsMeta := s.conversationsMeta[id := PageMeta(Some(name), 1)],
       metaKeys := InsertKey(s.metaKeys, id),
       conversationsState := s.conversationsState[id := [Message(NatToString(msgNow), "Hi " + name + "!", name, at, false)]])
  }

  /** Adding a friend creates {name, 1} with the friend's one greeting,
      keeps every other entry, list and input and the relative key order,
      and does not move the selection. */
  lemma FriendAddedShape(s: PageState, name: string, convNow: nat, msgNow: nat, at: int)
    requires Valid(s) && name in FriendSuggestions(s.friendQuery)
    ensures var r := FriendAdded(s, name, convNow, msgNow, at);
      var id := NatToString(convNow);
      && Valid(r)
      && r.conversationsMeta[id] == PageMeta(Some(name), 1)
      && |r.conversationsState[id]| == 1
      && r.conversationsState[id][0].text == "Hi " + name + "!"
      && r.conversationsState[id][0].sender == name
      && !r.conversationsState[id][0].isMine
      && r.selectedConv == s.selectedConv
      && (Paired(s) ==> Paired(r))
      && (forall k :: k in s.conversationsMeta && k != id ==> r.conversationsMeta[k] == s.conversationsMeta[k])
      && (forall k :: k in s.conversationsState && k != id ==> r.conversationsState[k] == s.conversationsState[k])
      && Subsequence(s.metaKeys, r.metaKeys)
      && r.newMessage == s.newMessage && r.typing == s.typing
      && r.newConvName == s.newConvName && r.friendQuery == s.friendQuery
      && name in SuggestedNames
  {
    var id := NatToString(convNow);
    AddEntryFrame(s, id, PageMeta(Some(name), 1), [Message(NatToString(msgNow), "Hi " + name + "!", name, at, false)]);
    AddEntryValid(s, id, PageMeta(Some(name), 1));
    SuggestionIsSuggested(s.friendQuery, name);
  }

  /** Every suggestion is one of the suggested names. */
  lemma SuggestionIsSuggested(query: string, name: string)
    requires name in FriendSuggestions(query)
    ensures name in SuggestedNames
  {
    MatchingNamesSpec(SuggestedNames, query);
  }

  // ---------------------------------------------------------------------
  // The component's state, updated in place
  // ---------------------------------------------------------------------

  class Chat {
    var conversationsState: map<string, seq<Message>>
    var conversationsMeta: map<string, PageMeta>
    var metaKeys: seq<string>
    var selectedConv: string
    var newMessage: string
    var typing: bool
    var newConvName: string
    var friendQuery: string

    function State(): PageState
      reads this
    {
      PageState(conversationsState, conversationsMeta, metaKeys, selectedConv, newMessage, typing, newConvName, friendQuery)
    }

    constructor (at: int)
      ensures State() == InitialState(at) && Valid(State())
    {
      conversationsState := map[
        "1" := [Message("1", "Xin chào! Chào mừng bạn đến với E-Net Chat.", "Bot", at, false)],
        "2" := [Message("1", "Welcome to group chat! 🎉", "Alice", at, false)]];
      conversationsMeta := map["1" := PageMeta(Some("Bot Support"), 2), "2" := PageMeta(Some("Group Chat"), 0)];
      metaKeys := ["1", "2"];
      selectedConv := "1";
      newMessage := "";
      typing := false;
      newConvName := "";
      friendQuery := "";
      InitialStateValid(at);
    }

    /** sendMessage; `replyTo` is the conversation the scheduled reply
        will go to, None when nothing was sent. */
    method SendMessage(now: nat, at: int) returns (replyTo: Option<string>)
      requires Valid(State())
      modifies this
      ensures State() == Sent(old(State()), now, at) && Valid(State())
      ensures replyTo == if Trim(old(newMessage)) == [] then None else Some(old(selectedConv))
    {
      var text := Trim(newMessage);
      if text == [] {
        return None;
      }
      var msg := Message(NatToString(now), text, "You", at, true);
      conversationsState := conversationsState[selectedConv := ListOf(conversationsState, selectedConv) + [msg]];
      newMessage := "";
      typing := true;
      replyTo := Some(selectedConv);
    }

    /** The timer callback scheduled by SendMessage for `convId`. */
    method DeliverReply(convId: string, now: nat, at: int, replyText: string)
      requires Valid(State())
      modifies this
      ensures State() == Replied(old(State()), convId, now, at, replyText) && Valid(State())
    {
      typing := false;
      var botMsg := Message(NatToString(now + 1), replyText, "Bot", at, false);
      conversationsState := conversationsState[convId := ListOf(conversationsState, convId) + [botMsg]];
    }

    method OpenConversation(convId: string)
      requires Valid(State())
      modifies this
      ensures State() == Opened(old(State()), convId) && Valid(State())
      ensures conversationsMeta[convId].unread == 0
    {
      WithUnreadShape(State(), convId, 0);
      selectedConv := convId;
      SetUnread(convId, 0);
    }

    /** `setConversationsMeta(prev => ({ ...prev, [id]: { ...prev[id], unread: n } }))`. */
    method SetUnread(id: string, n: int)
      requires Valid(State()) && n >= 0
      modifies this
      ensures State() == WithUnread(old(State()), id, n) && Valid(State())
    {
      WithUnreadShape(State(), id, n);
      var name := if id in conversationsMeta then conversationsMeta[id].name else None;
      conversationsMeta := conversationsMeta[id := PageMeta(name, n)];
      metaKeys := InsertKey(metaKeys, id);
    }

    method HandleConversationAction(convId: string, action: string)
      requires Valid(State())
      modifies this
      ensures State() == Acted(old(State()), convId, action) && Valid(State())
    {
      if action == "open" {
        OpenConversation(convId);
        return;
      }
      if action == "clear" {
        conversationsState := conversationsState[convId := []];
        return;
      }
      if action == "markRead" {
        SetUnread(convId, 0);
        return;
      }
      if action == "markUnread" {
        var n := if convId in conversationsMeta then conversationsMeta[convId].unread else 0;
        SetUnread(convId, n + 1);
        return;
      }
      if action == "delete" {
        DeletedShape(State(), convId);
        var keysBefore := metaKeys;
        conversationsState := conversationsState - {convId};
        conversationsMeta := conversationsMeta - {convId};
        metaKeys := RemoveKey(metaKeys, convId);
        if selectedConv == convId {
          selectedConv := FirstOrEmpty(keysBefore);
        }
      }
    }

    /** The "clear conversation" button of the details panel: empties the
        selected conversation. */
    method ClearSelected()
      requires Valid(State())
      modifies this
      ensures State() == Cleared(old(State()), old(selectedConv)) && Valid(State())
    {
      conversationsState := conversationsState[selectedConv := []];
    }

    /** The create button of the new-conversation dialog. */
    method CreateConversation(now: nat)
      requires Valid(State())
      modifies this
      ensures State() == Created(old(State()), now) && Valid(State())
    {
      var name := Trim(newConvName);
      if name == [] {
        return;
      }
      var id := NatToString(now);
      AddEntryValid(State(), id, PageMeta(Some(name), 0));
      conversationsMeta := conversationsMeta[id := PageMeta(Some(name), 0)];
      metaKeys := InsertKey(metaKeys, id);
      conversationsState := conversationsState[id := []];
      selectedConv := id;
      newConvName := "";
    }

    /** The add-friend button next to the suggested `name`. */
    method AddFriend(name: string, convNow: nat, msgNow: nat, at: int)
      requires Valid(State()) && name in FriendSuggestions(friendQuery)
      modifies this
      ensures State() == FriendAdded(old(State()), name, convNow, msgNow, at) && Valid(State())
    {
      var id := NatToString(convNow);
      AddEntryValid(State(), id, PageMeta(Some(name), 1));
      conversationsMeta := conversationsMeta[id := PageMeta(Some(name), 1)];
      metaKeys := InsertKey(metaKeys, id);
      conversationsState := conversationsState[id := [Message(NatToString(msgNow), "Hi " + name + "!", name, at, false)]];
    }
  }

  /** Sending "hello" in the initial conversation "1" (one bot message)
      gives two messages, the second the user's own "hello"; the reply
      gives three, the third from "Bot". */
  method SendReplyScenario(at: int, now: nat, replyText: string) returns (afterSend: seq<Message>, afterReply: seq<Message>, typingAfterSend: bool, typingAfterReply: bool)
    ensures |afterSend| == 2 && afterSend[1].isMine && afterSend[1].text == "hello" && afterSend[1].sender == "You"
    ensures |afterReply| == 3 && afterReply[..2] == afterSend
    ensures !afterReply[2].isMine && afterReply[2].sender == "Bot" && afterReply[2].text == replyText
    ensures typingAfterSend && !typingAfterReply
  {
    var page := new Chat(at);
    page.newMessage := "hello";
    TrimNoop("hello");
    ghost var start := page.conversationsState["1"];
    assert |start| == 1;
    var replyTo := page.SendMessage(now, at);
    assert replyTo == Some("1");
    afterSend := page.conversationsState["1"];
    assert afterSend == start + [Message(NatToString(now), "hello", "You", at, true)];
    typingAfterSend := page.typing;
    page.DeliverReply(replyTo.value, now + 900, at + 900, replyText);
    afterReply := page.conversationsState["1"];
    assert afterReply == afterSend + [Message(NatToString(now + 900 + 1), replyText, "Bot", at + 900, false)];
    typingAfterReply := page.typing;
  }
}
