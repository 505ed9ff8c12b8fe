/** Per-conversation message lists, shared by the Redux slice and the
    chat page: both keep a record from conversation id to an ordered,
    append-only list of messages. */
module MessageLists {

  /** `lists[id] || []`: the list of `id`, or an empty one when the
      record has no such key. */
  function ListOf<M>(lists: map<string, seq<M>>, id: string): seq<M> {
    if id in lists then lists[id] else []
  }

  /** The record after appending `m` at the end of the list of `id`,
      creating the list if it is missing. */
  function Appended<M>(lists: map<string, seq<M>>, id: string, m: M): (r: map<string, seq<M>>)
    ensures r.Keys == lists.Keys + {id}
    ensures forall k :: k in lists && k != id ==> r[k] == lists[k]
    ensures |r[id]| == |ListOf(lists, id)| + 1
    ensures r[id][..|ListOf(lists, id)|] == ListOf(lists, id)
    ensures r[id][|r[id]| - 1] == m
  {
    lists[id := ListOf(lists, id) + [m]]
  }

  /** Appends keep call order: appending `a` and then `b` leaves the old
      messages untouched and puts exactly `a`, `b` after them. */
  lemma AppendOrder<M>(lists: map<string, seq<M>>, id: string, a: M, b: M)
    ensures Appended(Appended(lists, id, a), id, b)[id] == ListOf(lists, id) + [a, b]
  {
    assert ListOf(lists, id) + [a] + [b] == ListOf(lists, id) + [a, b];
  }
}
