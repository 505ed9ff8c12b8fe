/** The conversation store of the Redux slice `chat`: per-conversation
    message lists, per-conversation metadata, and the selected
    conversation id. Each reducer is a method that updates the store in
    place, as the slice's Immer drafts do. */
module ChatSlice {
  import opened JsKeys
  import opened MessageLists

  datatype Message = Message(id: string, text: string, sender: string, timestamp: string, isMine: bool)

  datatype Meta = Meta(name: string, unread: int)

  /** The selection after deleting `id` while `selected` was selected:
      unchanged unless the deleted conversation was the selected one, in
      which case the first remaining key, or '' when none remain. */
  function FallbackSelection(keysAfter: seq<string>, selected: string, id: string): (r: string)
    ensures selected != id ==> r == selected
    ensures selected == id && |keysAfter| > 0 ==> r in keysAfter
    ensures selected == id && |keysAfter| == 0 ==> r == ""
  {
    if selected == id then FirstOrEmpty(keysAfter) else selected
  }

  /** Deleting never leaves the deleted id selected (the one exception
      is the id '', which already means "no selection"), and the new
      selection is a remaining conversation, the old selection, or ''. */
  lemma FallbackNeverDeleted(keys: seq<string>, selected: string, id: string)
    requires Ordered(keys)
    ensures var s := FallbackSelection(RemoveKey(keys, id), selected, id);
      && (s != id || id == "")
      && (s == selected || s == "" || (s in keys && s != id))
  {
    RemoveKeyShape(keys, id);
    var after := RemoveKey(keys, id);
    if |after| > 0 {
      assert after[0] in after;
    }
  }

  /** Unread counter after markAsUnread: one more when the entry exists. */
  function BumpUnread(meta: map<string, Meta>, id: string): (r: map<string, Meta>)
    ensures r.Keys == meta.Keys
    ensures forall k :: k in meta && k != id ==> r[k] == meta[k]
    ensures id in meta ==> r[id].name == meta[id].name && r[id].unread == meta[id].unread + 1
  {
    if id in meta then meta[id := meta[id].(unread := meta[id].unread + 1)] else meta
  }

  /** Unread counter after markAsRead / setSelectedConv: zero when the
      entry exists. */
  function ClearUnread(meta: map<string, Meta>, id: string): (r: map<string, Meta>)
    ensures r.Keys == meta.Keys
    ensures forall k :: k in meta && k != id ==> r[k] == meta[k]
    ensures id in meta ==> r[id].name == meta[id].name && r[id].unread == 0
  {
    if id in meta then meta[id := meta[id].(unread := 0)] else meta
  }

  /** Marking read twice is marking read once. */
  lemma ClearUnreadIdempotent(meta: map<string, Meta>, id: string)
    ensures ClearUnread(ClearUnread(meta, id), id) == ClearUnread(meta, id)
  {
  }

  /** markAsUnread keeps every counter non-negative. */
  lemma BumpUnreadNonNegative(meta: map<string, Meta>, id: string)
    requires forall k :: k in meta ==> meta[k].unread >= 0
    ensures forall k :: k in BumpUnread(meta, id) ==> BumpUnread(meta, id)[k].unread >= 0
  {
  }

  class ChatStore {
    var conversationsState: map<string, seq<Message>>
    var conversationsMeta: map<string, Meta>
    /** Object.keys(conversationsMeta), the only key order the program observes. */
    var metaKeys: seq<string>
    var selectedConvId: string

    ghost predicate Valid()
      reads this
    {
      && KeysOf(metaKeys, conversationsMeta)
      && forall id :: id in conversationsMeta ==> conversationsMeta[id].unread >= 0
    }

    /** Every conversation has both a metadata entry and a message list. */
    ghost predicate Paired()
      reads this
    {
      conversationsState.Keys == conversationsMeta.Keys
    }

    /** The slice's initial state; `now` is the ISO timestamp of the two
        seeded messages. */
    constructor (now: string)
      ensures Valid() && Paired()
      ensures conversationsState == map[
        "1" := [Message("1", "Xin chào! Chào mừng bạn đến với E-Net Chat.", "Bot", now, false)],
        "2" := [Message("1", "Welcome to group chat! 🎉", "Alice", now, false)]]
      ensures conversationsMeta == map["1" := Meta("Bot Support", 2), "2" := Meta("Group Chat", 0)]
      ensures metaKeys == ["1", "2"]
      ensures selectedConvId == ""
    {
      conversationsState := map[
        "1" := [Message("1", "Xin chào! Chào mừng bạn đến với E-Net Chat.", "Bot", now, false)],
        "2" := [Message("1", "Welcome to group chat! 🎉", "Alice", now, false)]];
      conversationsMeta := map["1" := Meta("Bot Support", 2), "2" := Meta("Group Chat", 0)];
      metaKeys := ["1", "2"];
      selectedConvId := "";
      assert JsString.IsArrayIndex("1") && JsString.IsArrayIndex("2");
    }

    /** setSelectedConv: records `id` even when no such conversation
        exists; resets its unread counter when it does. */
    method SetSelectedConv(id: string)
      requires Valid()
      modifies this
      ensures Valid()
      ensures selectedConvId == id
      ensures conversationsMeta == ClearUnread(old(conversationsMeta), id)
      ensures id in conversationsMeta ==> conversationsMeta[id].unread == 0
      ensures conversationsState == old(conversationsState) && metaKeys == old(metaKeys)
    {
      selectedConvId := id;
      conversationsMeta := ClearUnread(conversationsMeta, id);
    }

    /** addMessage: appends one message at the end of the list of
        `convId`, creating the list if it is missing. */
    method AddMessage(convId: string, message: Message)
      requires Valid()
      modifies this
      ensures Valid()
      ensures conversationsState == Appended(old(conversationsState), convId, message)
      ensures conversationsMeta == old(conversationsMeta) && metaKeys == old(metaKeys)
      ensures selectedConvId == old(selectedConvId)
    {
      conversationsState := Appended(conversationsState, convId, message);
    }

    /** clearConversation: the list of `convId` becomes empty, whether or
        not the conversation has metadata. */
    method ClearConversation(convId: string)
      requires Valid()
      modifies this
      ensures Valid()
      ensures conversationsState == old(conversationsState)[convId := []]
      ensures conversationsMeta == old(conversationsMeta) && metaKeys == old(metaKeys)
      ensures selectedConvId == old(selectedConvId)
    {
      conversationsState := conversationsState[convId := []];
    }

    /** markAsRead: unread becomes 0 when the entry exists; no-op
        otherwise. */
    method MarkAsRead(convId: string)
      requires Valid()
      modifies this
      ensures Valid()
      ensures conversationsMeta == ClearUnread(old(conversationsMeta), convId)
      ensures conversationsState == old(conversationsState) && metaKeys == old(metaKeys)
      ensures selectedConvId == old(selectedConvId)
    {
      conversationsMeta := ClearUnread(conversationsMeta, convId);
    }

    /** markAsUnread: unread goes up by one when the entry exists; no-op
        otherwise. */
    method MarkAsUnread(convId: string)
      requires Valid()
      modifies this
      ensures Valid()
      ensures conversationsMeta == BumpUnread(old(conversationsMeta), convId)
      ensures conversationsState == old(conversationsState) && metaKeys == old(metaKeys)
      ensures selectedConvId == old(selectedConvId)
    {
      BumpUnreadNonNegative(conversationsMeta, convId);
      conversationsMeta := BumpUnread(conversationsMeta, convId);
    }

    /** deleteConversation: removes `id` from both records; when it was
        selected, selects the first key left, or ''. */
    method DeleteConversation(id: string)
      requires Valid()
      modifies this
      ensures Valid()
      ensures conversationsState == old(conversationsState) - {id}
      ensures conversationsMeta == old(conversationsMeta) - {id}
      ensures metaKeys == RemoveKey(old(metaKeys), id)
      ensures selectedConvId == FallbackSelection(metaKeys, old(selectedConvId), id)
      ensures selectedConvId != id || id == ""
      ensures old(Paired()) ==> Paired()
    {
      FallbackNeverDeleted(metaKeys, selectedConvId, id);
      RemoveKeyShape(metaKeys, id);
      conversationsState := conversationsState - {id};
      conversationsMeta := conversationsMeta - {id};
      metaKeys := RemoveKey(metaKeys, id);
      selectedConvId := FallbackSelection(metaKeys, selectedConvId, id);
    }

    /** createConversation: `id` gets metadata {name, unread 0} and an
        empty list; an existing id is overwritten in place. */
    method CreateConversation(id: string, name: string)
      requires Valid()
      modifies this
      ensures Valid()
      ensures conversationsMeta == old(conversationsMeta)[id := Meta(name, 0)]
      ensures conversationsState == old(conversationsState)[id := []]
      ensures metaKeys == InsertKey(old(metaKeys), id)
      ensures selectedConvId == old(selectedConvId)
      ensures old(Paired()) ==> Paired()
    {
      InsertKeyShape(metaKeys, id);
      conversationsMeta := conversationsMeta[id := Meta(name, 0)];
      conversationsState := conversationsState[id := []];
      metaKeys := InsertKey(metaKeys, id);
    }
  }

  /** Creating a conversation under a fresh id and deleting it again
      gives back the same lists, metadata and key order; the selection
      is untouched unless it already pointed at that (absent) id. */
  method CreateThenDelete(store: ChatStore, id: string, name: string)
    requires store.Valid() && id !in store.conversationsMeta
    modifies store
    ensures store.Valid()
    ensures store.conversationsMeta == old(store.conversationsMeta)
    ensures store.metaKeys == old(store.metaKeys)
    ensures store.conversationsState == old(store.conversationsState) - {id}
    ensures old(store.selectedConvId) != id ==> store.selectedConvId == old(store.selectedConvId)
  {
    ghost var meta0, lists0 := store.conversationsMeta, store.conversationsState;
    RemoveInsertRoundTrip(store.metaKeys, id);
    assert meta0[id := Meta(name, 0)] - {id} == meta0;
    store.CreateConversation(id, name);
    store.DeleteConversation(id);
    assert store.conversationsState == lists0[id := []] - {id};
  }

  /** The key lists the scenario below walks through. */
  lemma ScenarioKeys(stamp: string)
    requires !JsString.IsArrayIndex(stamp)
    ensures InsertKey(["1", "2"], stamp) == ["1", "2", stamp]
    ensures RemoveKey(["1", "2", stamp], "1") == ["2", stamp]
    ensures InsertKey(["2", stamp], "1") == ["1", "2", stamp]
    ensures RemoveKey(["1", "2", stamp], "2") == ["1", stamp]
  {
    assert JsString.IsArrayIndex("1") && JsString.IsArrayIndex("2");
    assert stamp != "1" && stamp != "2";
    assert [stamp][1..] == [];
    assert ["1", "2", stamp][1..] == ["2", stamp] && ["2", stamp][1..] == [stamp];
    assert RemoveKey([stamp], "1") == [stamp] && RemoveKey([stamp], "2") == [stamp];
    assert RemoveKey(["2", stamp], "1") == ["2", stamp];
    assert RemoveKey(["2", stamp], "2") == [stamp];
  }

  /** Deleting the selected conversation selects the first remaining key
      in Object.keys order. Starting from the initial store plus one
      conversation created under a Date.now() id: deleting the selected
      "1" selects "2"; "1" created again is listed first (it is an array
      index), so deleting the selected "2" then selects "1". */
  method DeleteSelectedScenario(now: nat) returns (afterFirst: string, afterSecond: string, keys: seq<string>)
    requires now > JsString.MaxArrayIndex
    ensures afterFirst == "2" && afterSecond == "1"
    ensures keys == ["1", JsString.NatToString(now)]
  {
    var store := new ChatStore("2024-01-01T00:00:00.000Z");
    var stamp := JsString.NatToString(now);
    JsString.NatToStringArrayIndex(now);
    ScenarioKeys(stamp);
    store.CreateConversation(stamp, "Dat");
    store.SetSelectedConv("1");
    store.DeleteConversation("1");
    afterFirst := store.selectedConvId;
    store.CreateConversation("1", "Bot Support");
    store.SetSelectedConv("2");
    store.DeleteConversation("2");
    afterSecond := store.selectedConvId;
    keys := store.metaKeys;
  }
}
