/** The DynamoDB table holding one record per (assistant, thread), with the
    append-only list of runs started on the thread. */
module RunStore {
  import opened Js
  import opened Effects

  /** A thread record: `runs`, `updated`, and whatever other attributes it holds. */
  datatype Item = Item(runs: Option<seq<string>>, updated: Option<int>, other: map<string, string>)

  type Store = map<Key, Item>

  function ThreadKey(assistantId: JsStr, threadId: JsStr): Key {
    Key("ASST#" + Render(assistantId), "THREAD#" + Render(threadId))
  }

  /** `if_not_exists(#runs, :empty_list)`: the stored run list, or the empty
      list when the record or its `runs` attribute is missing. */
  function RunsOf(store: Store, key: Key): seq<string> {
    if key in store && store[key].runs.Some? then store[key].runs.value else []
  }

  /** Every record's run list in `before` is a prefix of its list in `after`. */
  ghost predicate RunsGrow(before: Store, after: Store) {
    forall k :: RunsOf(before, k) <= RunsOf(after, k)
  }

  /** Outside `keys`, the two stores hold the same records. */
  ghost predicate SameOutside(before: Store, after: Store, keys: set<Key>) {
    forall k | k !in keys :: (k in before <==> k in after) && (k in before ==> after[k] == before[k])
  }

  /** The update at the end of run creation:
      `SET #runs = list_append(if_not_exists(#runs, :empty_list), :runs), #updated = :updated`. */
  function Upsert(store: Store, key: Key, runId: string, updated: int): (s: Store)
    ensures s.Keys == store.Keys + {key}
    ensures RunsOf(s, key) == RunsOf(store, key) + [runId]
    ensures s[key].updated == Some(updated)
    ensures key in store ==> s[key].other == store[key].other
    ensures key !in store ==> s[key].other == map[]
    ensures forall k | k in store && k != key :: s[k] == store[k]
    ensures RunsGrow(store, s) && SameOutside(store, s, {key})
  {
    var item := if key in store then store[key] else Item(None, None, map[]);
    store[key := item.(runs := Some(RunsOf(store, key) + [runId]), updated := Some(updated))]
  }

  /** Upserting a sequence of runs one at a time, as successive run creations do. */
  function UpsertAll(store: Store, key: Key, runIds: seq<string>, updated: int): Store
    decreases |runIds|
  {
    if |runIds| == 0 then store
    else UpsertAll(Upsert(store, key, runIds[0], updated), key, runIds[1..], updated)
  }

  /** The run list is append-only: after any number of run creations it is the
      old list followed by the new runs in creation order, and no other record changes. */
  lemma {:induction false} UpsertAllAppends(store: Store, key: Key, runIds: seq<string>, updated: int)
    decreases |runIds|
    ensures RunsOf(UpsertAll(store, key, runIds, updated), key) == RunsOf(store, key) + runIds
    ensures forall k | k in store && k != key ::
      k in UpsertAll(store, key, runIds, updated) && UpsertAll(store, key, runIds, updated)[k] == store[k]
  {
    if |runIds| > 0 {
      var s1 := Upsert(store, key, runIds[0], updated);
      UpsertAllAppends(s1, key, runIds[1..], updated);
      assert [runIds[0]] + runIds[1..] == runIds;
      assert RunsOf(store, key) + [runIds[0]] + runIds[1..] == RunsOf(store, key) + runIds;
    }
  }

  /** Two threads share a record only if they render to the same assistant and thread ids. */
  lemma ThreadKeyInjective(a1: JsStr, t1: JsStr, a2: JsStr, t2: JsStr)
    ensures ThreadKey(a1, t1) == ThreadKey(a2, t2) <==> Render(a1) == Render(a2) && Render(t1) == Render(t2)
  {
    if ThreadKey(a1, t1) == ThreadKey(a2, t2) {
      var p := "ASST#";
      var q := "THREAD#";
      assert Render(a1) == (p + Render(a1))[|p|..];
      assert Render(a2) == (p + Render(a2))[|p|..];
      assert Render(t1) == (q + Render(t1))[|q|..];
      assert Render(t2) == (q + Render(t2))[|q|..];
    }
  }
}
