/** An abstract model of the keyed query cache the hooks write through:
    an ordered list of (key, data) entries with distinct keys, plus the set
    of keys marked stale by invalidation. Refetching is not modelled. */
module QueryCache {
  import opened Entities

  /** One element of a query key after its first. */
  datatype Param = Str(s: string) | Num(n: int)

  /** A query key `[family, ...params]`: `["posts", 0, 10]` is
      `Key("posts", [Num(0), Num(10)])`. */
  datatype Key = Key(family: string, params: seq<Param>)

  datatype Entry = Entry(key: Key, value: Value)

  /** No key occurs twice: the cache holds one query per key. */
  predicate DistinctKeys(es: seq<Entry>) {
    forall i, j :: 0 <= i < j < |es| ==> es[i].key != es[j].key
  }

  /** The position of the first entry with key `k`, or -1 when there is none. */
  function IndexOf(es: seq<Entry>, k: Key): (i: int)
    ensures -1 <= i < |es|
    ensures 0 <= i ==> es[i].key == k
    ensures forall j :: 0 <= j < |es| && (i < 0 || j < i) ==> es[j].key != k
  {
    if es == [] then -1
    else if es[0].key == k then 0
    else
      var r := IndexOf(es[1..], k);
      if r < 0 then -1 else r + 1
  }

  /** Two entry lists with the same keys at the same positions find every key
      at the same position. */
  lemma IndexOfSameKeys(a: seq<Entry>, b: seq<Entry>, k: Key)
    requires |a| == |b|
    requires forall j :: 0 <= j < |a| ==> a[j].key == b[j].key
    ensures IndexOf(a, k) == IndexOf(b, k)
  {
    var ia, ib := IndexOf(a, k), IndexOf(b, k);
    if ia >= 0 && ib >= 0 {
      assert !(ia < ib) && !(ib < ia);
    }
  }

  /** Appending an entry leaves every earlier key where it was. */
  lemma IndexOfAppend(es: seq<Entry>, e: Entry, k: Key)
    ensures IndexOf(es + [e], k) ==
      if IndexOf(es, k) >= 0 then IndexOf(es, k) else if e.key == k then |es| else -1
  {
    var r := es + [e];
    assert forall j :: 0 <= j < |es| ==> r[j] == es[j];
    var a, b := IndexOf(r, k), IndexOf(es, k);
    if b >= 0 {
      assert r[b].key == k;
    } else if e.key == k {
      assert r[|es|].key == k;
    }
  }

  /** `getQueryData(k)`: the data under `k`, Absent when no query has that key. */
  function Lookup(es: seq<Entry>, k: Key): (v: Value)
    ensures (exists j :: 0 <= j < |es| && es[j].key == k) || v == Absent
    ensures forall j :: 0 <= j < |es| && es[j].key == k && DistinctKeys(es) ==> v == es[j].value
  {
    var i := IndexOf(es, k);
    if i < 0 then Absent else es[i].value
  }

  /** The write `setQueryData(k, v)` performs for defined data: replace the
      data under `k`, or add a new query at the end when there is none. */
  function Put(es: seq<Entry>, k: Key, v: Value): (r: seq<Entry>)
    ensures Lookup(r, k) == v
    ensures forall k' :: k' != k ==> Lookup(r, k') == Lookup(es, k')
    ensures DistinctKeys(es) ==> DistinctKeys(r)
    ensures (exists j :: 0 <= j < |es| && es[j].key == k) ==> |r| == |es|
    ensures (exists j :: 0 <= j < |es| && es[j].key == k) ==>
      forall j :: 0 <= j < |es| ==> r[j].key == es[j].key && (es[j].key != k ==> r[j] == es[j])
    ensures (forall j :: 0 <= j < |es| ==> es[j].key != k) ==> r == es + [Entry(k, v)]
  {
    var i := IndexOf(es, k);
    if i < 0 then
      var r := es + [Entry(k, v)];
      assert forall k' :: IndexOf(r, k') == if k' == k then |es| else IndexOf(es, k') by {
        forall k' { IndexOfAppend(es, Entry(k, v), k'); }
      }
      r
    else
      var r := es[i := Entry(k, v)];
      assert forall k' :: IndexOf(r, k') == IndexOf(es, k') by {
        forall k' ensures IndexOf(r, k') == IndexOf(es, k') { IndexOfSameKeys(r, es, k'); }
      }
      r
  }

  /** Writing the same key twice keeps only the second write. */
  lemma PutPut(es: seq<Entry>, k: Key, v1: Value, v2: Value)
    ensures Put(Put(es, k, v1), k, v2) == Put(es, k, v2)
  {
    var i := IndexOf(es, k);
    var once := Put(es, k, v1);
    if i < 0 {
      IndexOfAppend(es, Entry(k, v1), k);
    } else {
      IndexOfSameKeys(once, es, k);
    }
  }

  /** `setQueryData` for every (key, data) pair of `writes` in order; a write
      of undefined data is skipped, as `setQueryData` skips it. */
  function PutAll(es: seq<Entry>, writes: seq<Entry>): (r: seq<Entry>)
    ensures DistinctKeys(es) ==> DistinctKeys(r)
    ensures forall k :: k !in TruthyKeys(writes) ==> Lookup(r, k) == Lookup(es, k)
  {
    if writes == [] then es
    else
      var init, last := writes[..|writes| - 1], writes[|writes| - 1];
      assert writes == init + [last];
      var r := PutAll(es, init);
      if Truthy(last.value) then Put(r, last.key, last.value) else r
  }

  lemma PutAllAppend(es: seq<Entry>, writes: seq<Entry>, e: Entry)
    ensures PutAll(es, writes + [e]) ==
      if Truthy(e.value) then Put(PutAll(es, writes), e.key, e.value) else PutAll(es, writes)
  {
    assert (writes + [e])[..|writes|] == writes;
  }

  /** The keys of a list of entries. */
  function KeysOf(es: seq<Entry>): (ks: set<Key>)
    ensures forall k :: k in ks <==> exists j :: 0 <= j < |es| && es[j].key == k
  {
    set j | 0 <= j < |es| :: es[j].key
  }

  /** The keys of the entries whose data is defined: the keys a sequence of
      `setQueryData` calls actually writes. */
  function TruthyKeys(es: seq<Entry>): (ks: set<Key>)
    ensures forall k :: k in ks <==> exists j :: 0 <= j < |es| && es[j].key == k && Truthy(es[j].value)
    ensures ks <= KeysOf(es)
  {
    set j | 0 <= j < |es| && Truthy(es[j].value) :: es[j].key
  }

  lemma TruthyKeysAppend(es: seq<Entry>, e: Entry)
    ensures TruthyKeys(es + [e]) == TruthyKeys(es) + if Truthy(e.value) then {e.key} else {}
  {
    var r := es + [e];
    assert r[|es|] == e;
    assert forall j :: 0 <= j < |es| ==> r[j] == es[j];
  }

  lemma KeysOfAppend(es: seq<Entry>, e: Entry)
    ensures KeysOf(es + [e]) == KeysOf(es) + {e.key}
  {
    var r := es + [e];
    assert r[|es|] == e;
    assert forall j :: 0 <= j < |es| ==> r[j] == es[j];
  }

  /** TanStack's partial key matching: `prefix` matches every key with the
      same family whose parameters start with the prefix's parameters. */
  predicate MatchesPrefix(prefix: Key, k: Key) {
    k.family == prefix.family && prefix.params <= k.params
  }

  /** The keys of existing queries that a prefix matches. */
  function KeysMatching(es: seq<Entry>, prefix: Key): (ks: set<Key>)
    ensures forall k :: k in ks <==> (exists j :: 0 <= j < |es| && es[j].key == k) && MatchesPrefix(prefix, k)
  {
    set j | 0 <= j < |es| && MatchesPrefix(prefix, es[j].key) :: es[j].key
  }

  /** The query client: the cached queries in the order `findAll` lists them,
      and the keys currently invalidated. */
  class QueryClient {
    var entries: seq<Entry>
    var stale: set<Key>

    ghost predicate Valid()
      reads this
    {
      DistinctKeys(entries)
    }

    constructor ()
      ensures Valid() && entries == [] && stale == {}
    {
      entries := [];
      stale := {};
    }

    function GetQueryData(k: Key): (v: Value)
      reads this
    {
      Lookup(entries, k)
    }

    /** `setQueryData(k, v)`: undefined data is not written and leaves
        everything as it was; any other data is written and clears the key's
        invalidated mark. */
    method SetQueryData(k: Key, v: Value)
      requires Valid()
      modifies this
      ensures Valid()
      ensures Truthy(v) ==> entries == Put(old(entries), k, v) && stale == old(stale) - {k}
      ensures !Truthy(v) ==> entries == old(entries) && stale == old(stale)
    {
      if Truthy(v) {
        entries := Put(entries, k, v);
        stale := stale - {k};
      }
    }

    /** `setQueryData(k, f)` with an updater function applied to the current data. */
    method UpdateQueryData(k: Key, f: Value -> Value)
      requires Valid()
      modifies this
      ensures Valid()
      ensures Truthy(f(Lookup(old(entries), k))) ==>
        entries == Put(old(entries), k, f(Lookup(old(entries), k))) && stale == old(stale) - {k}
      ensures !Truthy(f(Lookup(old(entries), k))) ==> entries == old(entries) && stale == old(stale)
    {
      var current := GetQueryData(k);
      SetQueryData(k, f(current));
    }

    /** `invalidateQueries({ queryKey: prefix })`: mark every existing query the
        prefix matches as stale; the data is left as it is. */
    method InvalidateQueries(prefix: Key)
      requires Valid()
      modifies this
      ensures Valid()
      ensures entries == old(entries)
      ensures stale == old(stale) + KeysMatching(entries, prefix)
    {
      stale := stale + KeysMatching(entries, prefix);
    }
  }
}
