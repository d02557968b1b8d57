/** The list of servers chosen for a terminal install. Entries are appended
    without de-duplication and removed by filtering. */
module Selection {

  import opened Document

  /** `list.filter(s => s !== id)`: drops every occurrence of `id`, keeping the
      other elements in their order. */
  function RemoveAll(list: seq<ServerId>, id: ServerId): (r: seq<ServerId>)
    ensures id !in r
    ensures multiset(r) == multiset(list)[id := 0]
    ensures forall x | x != id :: x in r <==> x in list
    ensures |r| == |list| - multiset(list)[id]
  {
    if list == [] then []
    else
      assert list == [list[0]] + list[1..];
      (if list[0] == id then [] else [list[0]]) + RemoveAll(list[1..], id)
  }

  /** Filtering distributes over concatenation; with `RemoveAll([x], id)` being
      `[]` or `[x]`, this pins the result down as the order-preserving filter. */
  lemma {:induction false} RemoveAllConcat(a: seq<ServerId>, b: seq<ServerId>, id: ServerId)
    ensures RemoveAll(a + b, id) == RemoveAll(a, id) + RemoveAll(b, id)
  {
    if a == [] {
      assert a + b == b;
    } else {
      assert (a + b)[0] == a[0];
      assert (a + b)[1..] == a[1..] + b;
      RemoveAllConcat(a[1..], b, id);
    }
  }

  /** Removing an id that is not listed leaves the list unchanged. */
  lemma {:induction false} RemoveAllAbsent(list: seq<ServerId>, id: ServerId)
    requires id !in list
    ensures RemoveAll(list, id) == list
  {
    if list != [] {
      assert id !in list[1..];
      RemoveAllAbsent(list[1..], id);
    }
  }

  /** Removing twice is removing once. */
  lemma RemoveAllIdempotent(list: seq<ServerId>, id: ServerId)
    ensures RemoveAll(RemoveAll(list, id), id) == RemoveAll(list, id)
  {
    RemoveAllAbsent(RemoveAll(list, id), id);
  }

  /** Appending `id` and then removing it is the same as removing it. */
  lemma RemoveAfterAppend(list: seq<ServerId>, id: ServerId)
    ensures RemoveAll(list + [id], id) == RemoveAll(list, id)
  {
    RemoveAllConcat(list, [id], id);
    assert RemoveAll([id], id) == [];
  }

  /** The round trip: for an id not previously listed, append followed by
      remove restores the list exactly. */
  lemma AppendThenRemoveRestores(list: seq<ServerId>, id: ServerId)
    requires id !in list
    ensures RemoveAll(list + [id], id) == list
  {
    RemoveAfterAppend(list, id);
    RemoveAllAbsent(list, id);
  }
}
