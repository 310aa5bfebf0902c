/**
 * The client cache over the catalog: hierarchical query keys, the infinite list of pages chained
 * by cursors, and the mutation protocol (invalidate after create and update; snapshot, optimistic
 * removal, rollback and invalidation around delete). The cache is a map from key sequences to
 * cached values; get and set address one key exactly, invalidate and cancel address every key
 * that starts with a given prefix.
 */
module ProjectQueries {
  import opened Common
  import opened Projects

  /** One element of a query key: a word (the namespace words and project ids) or a number (a page size). */
  datatype KeyPart = Word(w: string) | Size(n: int)

  type Key = seq<KeyPart>

  /** `p` is a prefix of `k`: TanStack's partial key match for array keys. */
  predicate IsPrefix(p: Key, k: Key) {
    |p| <= |k| && k[..|p|] == p
  }

  /** The default page size of the infinite project list. */
  const DefaultPageSize := 9

  /** `projectKeys.all`. */
  function All(): (k: Key)
    ensures |k| == 1
  {
    [Word("projects")]
  }

  /** `projectKeys.lists()`: the namespace of every page-size variant of the list. */
  function Lists(): (k: Key)
    ensures |k| == 2 && IsPrefix(All(), k) && k[1] == Word("list")
  {
    All() + [Word("list")]
  }

  /** `projectKeys.list(pageSize)`: where the pages of one page size are cached. */
  function List(pageSize: int): (k: Key)
    ensures k == Lists() + [Size(pageSize)]
    ensures IsPrefix(Lists(), k) && IsPrefix(All(), k) && k != Lists()
  {
    Lists() + [Size(pageSize)]
  }

  /** `projectKeys.details()`. */
  function Details(): (k: Key)
    ensures |k| == 2 && IsPrefix(All(), k) && k[1] == Word("detail")
    ensures !IsPrefix(Lists(), k) && !IsPrefix(k, Lists())
  {
    var k := All() + [Word("detail")];
    assert k[1] != Lists()[1];
    k
  }

  /** `projectKeys.detail(id)`. */
  function Detail(id: string): (k: Key)
    ensures k == Details() + [Word(id)]
    ensures IsPrefix(Details(), k) && IsPrefix(All(), k)
    ensures !IsPrefix(Lists(), k)
  {
    var k := Details() + [Word(id)];
    assert k[..2][1] != Lists()[1];
    k
  }

  /** useProject's key, or none when the query is disabled (`enabled: !!id`, so for the empty id). */
  function DetailQueryKey(id: string): (k: Option<Key>)
    ensures k.Some? <==> id != ""
    ensures k.Some? ==> k.value == Detail(id)
  {
    if id == "" then None else Some(Detail(id))
  }

  /** Two list keys and a detail key never coincide: the namespaces are disjoint. */
  lemma KeyNamespacesDisjoint(pageSize: int, id: string)
    ensures List(pageSize) != Detail(id)
    ensures !IsPrefix(Details(), List(pageSize))
    ensures !IsPrefix(Lists(), Details()) && !IsPrefix(Details(), Lists())
  {
    assert List(pageSize)[1] != Detail(id)[1];
    assert List(pageSize)[..2] != Details() by { assert List(pageSize)[1] == Word("list"); }
  }

  /** The infinite query's data: the pages fetched so far and the parameter each was fetched with. */
  datatype InfiniteData = InfiniteData(pages: seq<Page>, pageParams: seq<Option<ProjectDoc>>)

  /** What the cache holds: list pages, one project (or none), or the featured list. */
  datatype CacheValue =
    | InfinitePages(data: InfiniteData)
    | OneProject(doc: Option<ProjectDoc>)
    | FeaturedList(projects: seq<Project>)

  // ---------------------------------------------------------------------------------------------
  // Cursor chaining

  /** `getNextPageParam`: the previous page's last document, none when it is null. */
  function NextPageParam(lastPage: Page): (r: Option<ProjectDoc>)
    ensures r.Some? <==> lastPage.lastVisible.Some?
    ensures r.Some? ==> r == lastPage.lastVisible
  {
    lastPage.lastVisible
  }

  /** Every page after the first was fetched with the cursor of the page before it; the first with none. */
  predicate Chained(d: InfiniteData) {
    && |d.pageParams| == |d.pages|
    && (|d.pages| > 0 ==> d.pageParams[0] == None)
    && forall i :: 0 < i < |d.pages| ==> d.pageParams[i] == NextPageParam(d.pages[i - 1])
  }

  /** The first fetch of the infinite query, with the undefined initial page parameter. */
  function FirstPage(fetch: Option<ProjectDoc> -> Page): (d: InfiniteData)
    ensures Chained(d) && |d.pages| == 1 && d.pageParams == [None]
  {
    InfiniteData([fetch(None)], [None])
  }

  /** fetchNextPage: appends the page fetched with the last page's cursor; nothing when there is no next page. */
  function FetchNextPage(d: InfiniteData, fetch: Option<ProjectDoc> -> Page): (r: InfiniteData)
    requires Chained(d) && |d.pages| > 0
    ensures Chained(r)
    ensures |r.pages| >= |d.pages| && r.pages[..|d.pages|] == d.pages
    ensures |r.pageParams| >= |d.pageParams| && r.pageParams[..|d.pageParams|] == d.pageParams
    ensures NextPageParam(d.pages[|d.pages| - 1]).None? <==> r == d
    ensures r != d ==>
      |r.pages| == |d.pages| + 1 && r.pageParams[|d.pages|] == d.pages[|d.pages| - 1].lastVisible
  {
    var param := NextPageParam(d.pages[|d.pages| - 1]);
    if param.None? then d
    else
      var r := InfiniteData(d.pages + [fetch(param)], d.pageParams + [param]);
      assert |r.pages| != |d.pages|;
      r
  }

  // ---------------------------------------------------------------------------------------------
  // The optimistic-removal updater

  /** `projects.filter(p => p.id !== id)`. */
  function WithoutProject(ps: seq<ProjectDoc>, id: string): (r: seq<ProjectDoc>)
    ensures |r| <= |ps|
    ensures forall p :: p in r <==> p in ps && p.id != id
  {
    if |ps| == 0 then []
    else if ps[0].id == id then WithoutProject(ps[1..], id)
    else [ps[0]] + WithoutProject(ps[1..], id)
  }

  /** The filter distributes over concatenation: the kept projects stay in their order. */
  lemma {:induction false} WithoutProjectAppend(a: seq<ProjectDoc>, b: seq<ProjectDoc>, id: string)
    ensures WithoutProject(a + b, id) == WithoutProject(a, id) + WithoutProject(b, id)
  {
    if |a| > 0 {
      var ab := a + b;
      assert ab[0] == a[0];
      assert ab[1..] == a[1..] + b;
      WithoutProjectAppend(a[1..], b, id);
      var rest, tail := WithoutProject(a[1..], id), WithoutProject(b, id);
      if a[0].id == id {
        assert WithoutProject(ab, id) == rest + tail;
        assert WithoutProject(a, id) == rest;
      } else {
        assert WithoutProject(ab, id) == [a[0]] + (rest + tail);
        assert WithoutProject(a, id) == [a[0]] + rest;
        assert [a[0]] + (rest + tail) == ([a[0]] + rest) + tail;
      }
    } else {
      assert a + b == b;
    }
  }

  /** A page without the project is unchanged by the filter. */
  lemma {:induction false} WithoutProjectNoMatch(ps: seq<ProjectDoc>, id: string)
    requires forall i :: 0 <= i < |ps| ==> ps[i].id != id
    ensures WithoutProject(ps, id) == ps
  {
    if |ps| > 0 {
      WithoutProjectNoMatch(ps[1..], id);
    }
  }

  /** Filtering twice is filtering once. */
  lemma WithoutProjectIdempotent(ps: seq<ProjectDoc>, id: string)
    ensures WithoutProject(WithoutProject(ps, id), id) == WithoutProject(ps, id)
  {
    var r := WithoutProject(ps, id);
    forall i | 0 <= i < |r| ensures r[i].id != id {
      assert r[i] in r;
    }
    WithoutProjectNoMatch(r, id);
  }

  /** `{...page, projects: page.projects.filter(...)}`: only the projects change, not the cursor. */
  function RemoveFromPage(page: Page, id: string): (r: Page)
    ensures r.lastVisible == page.lastVisible
    ensures forall p :: p in r.projects <==> p in page.projects && p.id != id
  {
    page.(projects := WithoutProject(page.projects, id))
  }

  /** `{...old, pages: old.pages.map(...)}`: every page filtered, page count and page params kept. */
  function RemoveFromData(d: InfiniteData, id: string): (r: InfiniteData)
    ensures |r.pages| == |d.pages| && r.pageParams == d.pageParams
    ensures forall i :: 0 <= i < |d.pages| ==> r.pages[i] == RemoveFromPage(d.pages[i], id)
    ensures forall i, p :: 0 <= i < |r.pages| && p in r.pages[i].projects ==> p.id != id
  {
    InfiniteData(seq(|d.pages|, i requires 0 <= i < |d.pages| => RemoveFromPage(d.pages[i], id)), d.pageParams)
  }

  /** The optimistic removal keeps the cursor chain intact, so the next fetch continues where it would have. */
  lemma RemoveFromDataKeepsChain(d: InfiniteData, id: string)
    requires Chained(d)
    ensures Chained(RemoveFromData(d, id))
    ensures |d.pages| > 0 ==>
      NextPageParam(RemoveFromData(d, id).pages[|d.pages| - 1]) == NextPageParam(d.pages[|d.pages| - 1])
  {
  }

  /** The updater applied to one cached value; values that are not list pages are left as they are. */
  function RemoveFromValue(v: CacheValue, id: string): (r: CacheValue)
    ensures r.InfinitePages? <==> v.InfinitePages?
    ensures v.InfinitePages? ==> r.data == RemoveFromData(v.data, id)
    ensures !v.InfinitePages? ==> r == v
  {
    match v
    case InfinitePages(d) => InfinitePages(RemoveFromData(d, id))
    case _ => v
  }

  /** The updater handed to setQueryData: `if (!old) return old`, else the filtered data. */
  function RemoveUpdater(prev: Option<CacheValue>, id: string): (r: Option<CacheValue>)
    ensures prev.None? <==> r.None?
    ensures prev.Some? ==> r.value == RemoveFromValue(prev.value, id)
  {
    match prev
    case None => None
    case Some(v) => Some(RemoveFromValue(v, id))
  }

  /** Applying the updater twice is applying it once. */
  lemma RemoveUpdaterIdempotent(prev: Option<CacheValue>, id: string)
    ensures RemoveUpdater(RemoveUpdater(prev, id), id) == RemoveUpdater(prev, id)
  {
    if prev.Some? && prev.value.InfinitePages? {
      var d := prev.value.data;
      var once := RemoveFromData(d, id);
      forall i | 0 <= i < |d.pages|
        ensures RemoveFromPage(once.pages[i], id) == once.pages[i]
      {
        WithoutProjectIdempotent(d.pages[i].projects, id);
      }
      assert RemoveFromData(once, id).pages == once.pages;
    }
  }

  // ---------------------------------------------------------------------------------------------
  // The cache map, exact-key and prefix operations

  /** setQueryData(key, updater): the updater sees the exact entry; an undefined result writes nothing. */
  function SetWithUpdater(entries: map<Key, CacheValue>, key: Key, id: string): (r: map<Key, CacheValue>)
    ensures key !in entries ==> r == entries
    ensures key in entries ==> r == entries[key := RemoveFromValue(entries[key], id)]
  {
    var updated := RemoveUpdater(if key in entries then Some(entries[key]) else None, id);
    if updated.None? then entries else entries[key := updated.value]
  }

  /** The keys an invalidate or cancel with `prefix` addresses. */
  function Matching(keys: set<Key>, prefix: Key): (r: set<Key>)
    ensures r <= keys
    ensures forall k :: k in r <==> k in keys && IsPrefix(prefix, k)
  {
    set k | k in keys && IsPrefix(prefix, k)
  }

  /** The prefix-wide optimistic removal: every entry under `prefix` goes through the updater. */
  function RemoveUnder(entries: map<Key, CacheValue>, prefix: Key, id: string): (r: map<Key, CacheValue>)
    ensures r.Keys == entries.Keys
    ensures forall k :: k in entries && !IsPrefix(prefix, k) ==> r[k] == entries[k]
    ensures forall k :: k in entries && IsPrefix(prefix, k) ==> r[k] == RemoveFromValue(entries[k], id)
  {
    map k | k in entries :: if IsPrefix(prefix, k) then RemoveFromValue(entries[k], id) else entries[k]
  }

  /** A snapshot of every entry under `prefix` (getQueriesData). */
  function SnapshotUnder(entries: map<Key, CacheValue>, prefix: Key): (r: map<Key, CacheValue>)
    ensures r.Keys == Matching(entries.Keys, prefix)
    ensures forall k :: k in r ==> r[k] == entries[k]
  {
    map k | k in entries && IsPrefix(prefix, k) :: entries[k]
  }

  /** Writes every snapshotted entry back. */
  function Restore(entries: map<Key, CacheValue>, snapshot: map<Key, CacheValue>): (r: map<Key, CacheValue>)
    ensures r.Keys == entries.Keys + snapshot.Keys
    ensures forall k :: k in snapshot ==> r[k] == snapshot[k]
    ensures forall k :: k in entries && k !in snapshot ==> r[k] == entries[k]
  {
    entries + snapshot
  }

  /** Rolling back the prefix-wide removal with its snapshot gives back the exact previous cache. */
  lemma RestoreUndoesRemoveUnder(entries: map<Key, CacheValue>, prefix: Key, id: string)
    ensures Restore(RemoveUnder(entries, prefix, id), SnapshotUnder(entries, prefix)) == entries
  {
    var r := Restore(RemoveUnder(entries, prefix, id), SnapshotUnder(entries, prefix));
    assert r.Keys == entries.Keys;
    forall k | k in entries ensures r[k] == entries[k] {
      if IsPrefix(prefix, k) {
        assert k in SnapshotUnder(entries, prefix);
      }
    }
  }

  /** Rolling back the exact-key write with its snapshot gives back the exact previous cache. */
  lemma RestoreUndoesSetWithUpdater(entries: map<Key, CacheValue>, key: Key, id: string)
    requires key in entries
    ensures SetWithUpdater(entries, key, id)[key := entries[key]] == entries
  {
  }

  /** After the prefix-wide removal, no list page under `prefix` holds the project any more. */
  lemma RemoveUnderRemovesEverywhere(entries: map<Key, CacheValue>, prefix: Key, id: string, k: Key, i: nat, p: ProjectDoc)
    requires k in entries && IsPrefix(prefix, k) && entries[k].InfinitePages?
    requires i < |entries[k].data.pages|
    ensures var v := RemoveUnder(entries, prefix, id)[k];
      && v.InfinitePages? && |v.data.pages| == |entries[k].data.pages|
      && (p in v.data.pages[i].projects <==> p in entries[k].data.pages[i].projects && p.id != id)
  {
  }

  /**
   * The exact-key removal the delete mutation performs at `lists()` changes nothing when nothing is
   * cached at exactly that key, which is where list pages never are (they sit one level below).
   */
  lemma ExactKeyRemovalMissesPages(entries: map<Key, CacheValue>, id: string)
    requires Lists() !in entries
    ensures SetWithUpdater(entries, Lists(), id) == entries
  {
  }

  /** One cached list page of the default size that holds project `id`. */
  function PagesHolding(id: string): (entries: map<Key, CacheValue>)
    ensures List(DefaultPageSize) in entries && Lists() !in entries
  {
    var page := Page([ProjectDoc(id, Doc("", "", "", None, None, None, None, None, None, None, None))], None);
    map[List(DefaultPageSize) := InfinitePages(InfiniteData([page], [None]))]
  }

  /** Deleting `id` as written leaves it on the cached page; the prefix-wide removal takes it off. */
  lemma ExactKeyRemovalCounterexample(id: string)
    ensures var entries := PagesHolding(id);
      var asWritten := SetWithUpdater(entries, Lists(), id)[List(DefaultPageSize)];
      var corrected := RemoveUnder(entries, Lists(), id)[List(DefaultPageSize)];
      && |asWritten.data.pages[0].projects| == 1 && asWritten.data.pages[0].projects[0].id == id
      && corrected.data.pages[0].projects == []
  {
    var entries := PagesHolding(id);
    ExactKeyRemovalMissesPages(entries, id);
    var ps := entries[List(DefaultPageSize)].data.pages[0].projects;
    assert ps[1..] == [];
  }

  /**
   * The query cache: cached values, the keys marked stale by invalidation and the keys with a fetch
   * in flight.
   */
  class QueryCache {
    var entries: map<Key, CacheValue>
    var stale: set<Key>
    var fetching: set<Key>

    constructor ()
      ensures entries == map[] && stale == {} && fetching == {}
    {
      entries, stale, fetching := map[], {}, {};
    }

    /** getQueryData: the value under exactly `key`. */
    function GetQueryData(key: Key): (r: Option<CacheValue>)
      reads this
      ensures r.Some? <==> key in entries
      ensures r.Some? ==> r.value == entries[key]
    {
      if key in entries then Some(entries[key]) else None
    }

    /** setQueryData with a value: writes exactly `key`. */
    method SetQueryData(key: Key, value: CacheValue)
      modifies this
      ensures entries == old(entries)[key := value]
      ensures stale == old(stale) && fetching == old(fetching)
    {
      entries := entries[key := value];
    }

    /** setQueryData with the removal updater: writes exactly `key`, and only when a value is there. */
    method RemoveAt(key: Key, id: string)
      modifies this
      ensures entries == SetWithUpdater(old(entries), key, id)
      ensures stale == old(stale) && fetching == old(fetching)
    {
      var updated := RemoveUpdater(GetQueryData(key), id);
      if updated.Some? {
        entries := entries[key := updated.value];
      }
    }

    /** invalidateQueries: marks every cached query under `prefix` stale; values stay until refetched. */
    method InvalidateQueries(prefix: Key)
      modifies this
      ensures stale == old(stale) + Matching(old(entries).Keys, prefix)
      ensures entries == old(entries) && fetching == old(fetching)
    {
      stale := stale + Matching(entries.Keys, prefix);
    }

    /** cancelQueries: drops every in-flight fetch under `prefix`. */
    method CancelQueries(prefix: Key)
      modifies this
      ensures fetching == old(fetching) - Matching(old(fetching), prefix)
      ensures entries == old(entries) && stale == old(stale)
    {
      fetching := fetching - Matching(fetching, prefix);
    }

    /** useCreateProject's onSuccess. */
    method OnCreateSuccess()
      modifies this
      ensures stale == old(stale) + Matching(old(entries).Keys, Lists())
      ensures entries == old(entries) && fetching == old(fetching)
    {
      InvalidateQueries(Lists());
    }

    /** useUpdateProject's onSuccess: the project's detail entry and every list. */
    method OnUpdateSuccess(id: string)
      modifies this
      ensures stale == old(stale) + Matching(old(entries).Keys, Detail(id)) + Matching(old(entries).Keys, Lists())
      ensures entries == old(entries) && fetching == old(fetching)
    {
      InvalidateQueries(Detail(id));
      InvalidateQueries(Lists());
    }

    /** useDeleteProject's onMutate: cancel list fetches, snapshot `lists()`, remove the project there. */
    method DeleteOnMutate(id: string) returns (previous: Option<CacheValue>)
      modifies this
      ensures previous == (if Lists() in old(entries) then Some(old(entries)[Lists()]) else None)
      ensures entries == SetWithUpdater(old(entries), Lists(), id)
      ensures fetching == old(fetching) - Matching(old(fetching), Lists()) && stale == old(stale)
    {
      CancelQueries(Lists());
      previous := GetQueryData(Lists());
      RemoveAt(Lists(), id);
    }

    /** useDeleteProject's onError: writes the snapshot back when there is one, else nothing. */
    method DeleteOnError(previous: Option<CacheValue>)
      modifies this
      ensures entries == (if previous.Some? then old(entries)[Lists() := previous.value] else old(entries))
      ensures stale == old(stale) && fetching == old(fetching)
    {
      if previous.Some? {
        SetQueryData(Lists(), previous.value);
      }
    }

    /** useDeleteProject's onSettled: invalidate every list, on success and on failure. */
    method DeleteOnSettled()
      modifies this
      ensures stale == old(stale) + Matching(old(entries).Keys, Lists())
      ensures entries == old(entries) && fetching == old(fetching)
    {
      InvalidateQueries(Lists());
    }

    /**
     * The whole delete mutation as written, where `failed` is whether deleteProject threw: the cache
     * ends as it began (every list page still holds the project until refetched) and every list is stale.
     */
    method DeleteMutation(id: string, failed: bool)
      modifies this
      ensures Lists() !in old(entries) ==> entries == old(entries)
      ensures Lists() in old(entries) ==>
        entries == (if failed then old(entries) else SetWithUpdater(old(entries), Lists(), id))
      ensures stale == old(stale) + Matching(old(entries).Keys, Lists())
      ensures fetching == old(fetching) - Matching(old(fetching), Lists())
    {
      var previous := DeleteOnMutate(id);
      if failed {
        DeleteOnError(previous);
      }
      DeleteOnSettled();
    }

    /**
     * The delete mutation with the snapshot, removal and rollback addressing every key under
     * `lists()` (getQueriesData / setQueriesData): on success every cached list page loses the
     * project, on failure the cache is restored exactly.
     */
    method DeleteMutationAllLists(id: string, failed: bool)
      modifies this
      ensures entries == (if failed then old(entries) else RemoveUnder(old(entries), Lists(), id))
      ensures stale == old(stale) + Matching(old(entries).Keys, Lists())
      ensures fetching == old(fetching) - Matching(old(fetching), Lists())
    {
      CancelQueries(Lists());
      var previous := SnapshotUnder(entries, Lists());
      ghost var before := entries;
      entries := RemoveUnder(entries, Lists(), id);
      if failed {
        entries := Restore(entries, previous);
        RestoreUndoesRemoveUnder(before, Lists(), id);
      }
      InvalidateQueries(Lists());
    }
  }
}
