/** The optimistic like, bookmark and visibility toggles of the post hooks:
    one updater parametrised by the action, the scan that rewrites and
    snapshots every matching cached query, the rollback on error and the
    invalidation on settle. */
module PostToggles {
  import opened Entities
  import opened QueryCache

  datatype Action = Like | Bookmark | Visibility

  /** The flag an action flips. */
  function Flag(a: Action, p: Post): bool {
    match a
    case Like => p.isLiked
    case Bookmark => p.isBookmarked
    case Visibility => p.isPublic
  }

  /** `p` and `q` agree on every field the action does not own: a like owns
      `isLiked` and `likesCount`, a bookmark `isBookmarked`, a visibility
      toggle `isPublic`. */
  predicate AgreeOutside(a: Action, p: Post, q: Post) {
    && p.id == q.id && p.userId == q.userId && p.user == q.user
    && p.title == q.title && p.description == q.description
    && p.pdfUrl == q.pdfUrl && p.thumbnailUrl == q.thumbnailUrl
    && p.fileSize == q.fileSize && p.pageCount == q.pageCount
    && p.commentsCount == q.commentsCount && p.sharesCount == q.sharesCount
    && p.createdAt == q.createdAt
    && (a != Like ==> p.isLiked == q.isLiked && p.likesCount == q.likesCount)
    && (a != Bookmark ==> p.isBookmarked == q.isBookmarked)
    && (a != Visibility ==> p.isPublic == q.isPublic)
  }

  /** The like counter agrees with the like flag: never negative, and at
      least one when the current user likes the post. */
  predicate LikeConsistent(p: Post) {
    p.likesCount >= 0 && (p.isLiked ==> p.likesCount >= 1)
  }

  /** `updatePost`: the post with id `postId` gets its action's flag negated
      (and, for a like, its counter moved one step the same way); any other
      post is returned as it is. */
  function UpdatePost(a: Action, postId: string, post: Post): (r: Post)
    ensures post.id != postId ==> r == post
    ensures post.id == postId ==> Flag(a, r) == !Flag(a, post) && AgreeOutside(a, post, r)
    ensures post.id == postId && a == Like ==>
      r.likesCount == post.likesCount + (if post.isLiked then -1 else 1)
  {
    if post.id == postId then
      match a
      case Like =>
        post.(isLiked := !post.isLiked,
              likesCount := if post.isLiked then post.likesCount - 1 else post.likesCount + 1)
      case Bookmark => post.(isBookmarked := !post.isBookmarked)
      case Visibility => post.(isPublic := !post.isPublic)
    else post
  }

  /** `updater`: falsy data is returned as it is; a list of posts is mapped
      through UpdatePost; a single post is rewritten only when its id is
      `postId`. Chat messages carry no `id` field, so mapping UpdatePost over
      them changes nothing; any other value is returned as it is. */
  function Updater(a: Action, postId: string, data: Value): (r: Value)
    ensures Truthy(r) == Truthy(data)
    ensures !data.List? && !data.Single? ==> r == data
    ensures data.List? ==> r.List? && |r.posts| == |data.posts|
    ensures data.List? ==> forall j :: 0 <= j < |data.posts| ==> r.posts[j] == UpdatePost(a, postId, data.posts[j])
    ensures data.List? ==> forall j :: 0 <= j < |data.posts| && data.posts[j].id != postId ==> r.posts[j] == data.posts[j]
    ensures data.Single? && data.post.id != postId ==> r == data
    ensures data.Single? && data.post.id == postId ==> r == Single(UpdatePost(a, postId, data.post))
  {
    match data
    case Absent => data
    case List(ps) => List(seq(|ps|, j requires 0 <= j < |ps| => UpdatePost(a, postId, ps[j])))
    case Single(p) => if p.id == postId then Single(UpdatePost(a, postId, p)) else data
    case Messages(_) => data
    case Other(_) => data
  }

  /** Toggling the same post twice gives back the original post. */
  lemma UpdatePostTwice(a: Action, postId: string, p: Post)
    ensures UpdatePost(a, postId, UpdatePost(a, postId, p)) == p
  {
  }

  /** Every toggle keeps the like counter consistent with the like flag. */
  lemma UpdatePostKeepsLikeConsistent(a: Action, postId: string, p: Post)
    requires LikeConsistent(p)
    ensures LikeConsistent(UpdatePost(a, postId, p))
  {
  }

  /** Applying the same action's updater twice gives back the original data,
      counters included. */
  lemma {:induction false} UpdaterTwice(a: Action, postId: string, v: Value)
    ensures Updater(a, postId, Updater(a, postId, v)) == v
  {
    match v
    case List(ps) =>
      var twice := Updater(a, postId, Updater(a, postId, v)).posts;
      assert |twice| == |ps|;
      forall j | 0 <= j < |ps| ensures twice[j] == ps[j] {
        UpdatePostTwice(a, postId, ps[j]);
      }
    case Single(p) =>
      UpdatePostTwice(a, postId, p);
    case _ =>
  }

  /** The query keys the post hooks use. */
  function PostsKey(offset: int, limit: int): Key { Key("posts", [Num(offset), Num(limit)]) }
  function FeedKey(offset: int, limit: int): Key { Key("feed", [Num(offset), Num(limit)]) }
  function PostKey(postId: string): Key { Key("post", [Str(postId)]) }
  function SearchKey(q: string): Key { Key("posts", [Str("search"), Str(q)]) }
  function CommentsKey(postId: string, offset: int, limit: int): Key {
    Key("comments", [Str(postId), Num(offset), Num(limit)])
  }

  /** The key test of the scan: family `posts` or `feed`, or family `post`
      whose second element is `postId`. */
  predicate Selected(k: Key, postId: string) {
    || k.family == "posts"
    || k.family == "feed"
    || (k.family == "post" && |k.params| >= 1 && k.params[0] == Str(postId))
  }

  /** Which of the application's keys the scan selects: every page of posts
      and of the feed, every search result, and the post's own query; not the
      query of another post, nor bookmarks, profile posts, comments or chat. */
  lemma SelectedKeys(postId: string, other: string, userId: string, q: string, offset: int, limit: int)
    requires other != postId
    ensures Selected(PostsKey(offset, limit), postId) && Selected(FeedKey(offset, limit), postId)
    ensures Selected(SearchKey(q), postId) && Selected(PostKey(postId), postId)
    ensures !Selected(PostKey(other), postId)
    ensures !Selected(Key("bookmarks", [Str(userId), Num(offset), Num(limit)]), postId)
    ensures !Selected(Key("userProfilePosts", [Str(userId), Num(offset), Num(limit)]), postId)
    ensures !Selected(Key("userProfile", [Str(userId)]), postId)
    ensures !Selected(CommentsKey(postId, offset, limit), postId)
    ensures !Selected(Key("chat-messages", [Str(postId)]), postId)
  {
  }

  /** An entry the scan snapshots and rewrites: a selected key holding data. */
  predicate Rewrites(e: Entry, postId: string) {
    Selected(e.key, postId) && Truthy(e.value)
  }

  /** One entry after the scan. */
  function RewriteEntry(a: Action, postId: string, e: Entry): Entry {
    if Rewrites(e, postId) then Entry(e.key, Updater(a, postId, e.value)) else e
  }

  /** The whole cache after the scan. */
  function Rewritten(a: Action, postId: string, es: seq<Entry>): (r: seq<Entry>)
    ensures |r| == |es| && forall j :: 0 <= j < |es| ==> r[j].key == es[j].key
  {
    seq(|es|, j requires 0 <= j < |es| => RewriteEntry(a, postId, es[j]))
  }

  /** `previousQueries`: the (key, data) pairs of the rewritten entries, in
      scan order, holding the data from before the rewrite. */
  function Snapshot(postId: string, es: seq<Entry>): (s: seq<Entry>)
    ensures forall e :: e in s <==> e in es && Rewrites(e, postId)
  {
    if es == [] then []
    else
      var last := es[|es| - 1];
      assert es == es[..|es| - 1] + [last];
      Snapshot(postId, es[..|es| - 1]) + if Rewrites(last, postId) then [last] else []
  }

  /** Seen through `getQueryData`, the scan rewrites exactly the selected keys
      with the updater and leaves every other key's data as it was. */
  lemma RewrittenLookup(a: Action, postId: string, es: seq<Entry>, k: Key)
    ensures Lookup(Rewritten(a, postId, es), k) ==
      if Selected(k, postId) then Updater(a, postId, Lookup(es, k)) else Lookup(es, k)
  {
    IndexOfSameKeys(Rewritten(a, postId, es), es, k);
  }

  /** The cache with the first `n` entries restored and the rest rewritten. */
  function RestoredUpTo(a: Action, postId: string, es: seq<Entry>, n: nat): (r: seq<Entry>)
    requires n <= |es|
    ensures |r| == |es| && forall j :: 0 <= j < |es| ==> r[j].key == es[j].key
  {
    seq(|es|, j requires 0 <= j < |es| => if j < n then es[j] else RewriteEntry(a, postId, es[j]))
  }

  /** The snapshot of a longer scan extends the shorter one by at most the
      new entry. */
  lemma SnapshotAppend(postId: string, es: seq<Entry>, e: Entry)
    ensures Snapshot(postId, es + [e]) == Snapshot(postId, es) + if Rewrites(e, postId) then [e] else []
  {
    assert (es + [e])[..|es|] == es;
  }

  /** Restoring entry `n - 1` over the cache restored up to it. */
  lemma RestoreOne(a: Action, postId: string, es: seq<Entry>, n: nat)
    requires DistinctKeys(es) && 0 < n <= |es|
    ensures Put(RestoredUpTo(a, postId, es, n - 1), es[n - 1].key, es[n - 1].value) == RestoredUpTo(a, postId, es, n)
  {
    var prev := RestoredUpTo(a, postId, es, n - 1);
    var e := es[n - 1];
    IndexOfSameKeys(prev, es, e.key);
    assert IndexOf(es, e.key) == n - 1;
    assert prev[n - 1 := e] == RestoredUpTo(a, postId, es, n);
  }

  /** An entry the scan left alone needs no restoring. */
  lemma RestoreSkip(a: Action, postId: string, es: seq<Entry>, n: nat)
    requires 0 < n <= |es| && !Rewrites(es[n - 1], postId)
    ensures RestoredUpTo(a, postId, es, n - 1) == RestoredUpTo(a, postId, es, n)
  {
  }

  /** One step of the rollback: writing back the snapshot of entry `n - 1`,
      if there is one, restores that entry. */
  lemma RollbackStep(a: Action, postId: string, es: seq<Entry>, n: nat)
    requires DistinctKeys(es) && 0 < n <= |es|
    requires PutAll(Rewritten(a, postId, es), Snapshot(postId, es[..n - 1])) == RestoredUpTo(a, postId, es, n - 1)
    ensures PutAll(Rewritten(a, postId, es), Snapshot(postId, es[..n])) == RestoredUpTo(a, postId, es, n)
  {
    var e := es[n - 1];
    var rewritten := Rewritten(a, postId, es);
    assert es[..n] == es[..n - 1] + [e];
    SnapshotAppend(postId, es[..n - 1], e);
    var before := Snapshot(postId, es[..n - 1]);
    if Rewrites(e, postId) {
      calc {
        PutAll(rewritten, Snapshot(postId, es[..n]));
        PutAll(rewritten, before + [e]);
        { PutAllAppend(rewritten, before, e); }
        Put(PutAll(rewritten, before), e.key, e.value);
        Put(RestoredUpTo(a, postId, es, n - 1), e.key, e.value);
        { RestoreOne(a, postId, es, n); }
        RestoredUpTo(a, postId, es, n);
      }
    } else {
      assert Snapshot(postId, es[..n]) == before;
      RestoreSkip(a, postId, es, n);
    }
  }

  lemma {:induction false} RollbackPrefix(a: Action, postId: string, es: seq<Entry>, n: nat)
    requires DistinctKeys(es) && n <= |es|
    ensures PutAll(Rewritten(a, postId, es), Snapshot(postId, es[..n])) == RestoredUpTo(a, postId, es, n)
  {
    if n == 0 {
      assert Snapshot(postId, es[..0]) == [];
      assert RestoredUpTo(a, postId, es, 0) == Rewritten(a, postId, es);
    } else {
      RollbackPrefix(a, postId, es, n - 1);
      RollbackStep(a, postId, es, n);
    }
  }

  /** Rollback is exact: writing every snapshot back over the rewritten cache
      gives the cache as it was before the scan. */
  lemma RollbackRestores(a: Action, postId: string, es: seq<Entry>)
    requires DistinctKeys(es)
    ensures PutAll(Rewritten(a, postId, es), Snapshot(postId, es)) == es
  {
    RollbackPrefix(a, postId, es, |es|);
    assert es[..|es|] == es;
    assert RestoredUpTo(a, postId, es, |es|) == es;
  }

  /** Two successful toggles of the same action on the same post give back
      the cache as it was, counters included. */
  lemma ToggleTwiceRestores(a: Action, postId: string, es: seq<Entry>)
    ensures Rewritten(a, postId, Rewritten(a, postId, es)) == es
  {
    var twice := Rewritten(a, postId, Rewritten(a, postId, es));
    forall j | 0 <= j < |es| ensures twice[j] == es[j] {
      UpdaterTwice(a, postId, es[j].value);
    }
  }

  /** The cache while the scan is at position `i`: the entries before it
      rewritten, the others as they were. */
  function ScannedUpTo(a: Action, postId: string, es: seq<Entry>, i: nat): (r: seq<Entry>)
    requires i <= |es|
    ensures |r| == |es| && forall j :: 0 <= j < |es| ==> r[j].key == es[j].key
  {
    seq(|es|, j requires 0 <= j < |es| => if j < i then RewriteEntry(a, postId, es[j]) else es[j])
  }

  /** One step of the scan: the entry at `i` still holds its original data,
      and writing the updater's result there (when the entry is rewritten)
      moves the scan on by one. */
  lemma ScanStep(a: Action, postId: string, es: seq<Entry>, i: nat)
    requires DistinctKeys(es) && i < |es|
    ensures Lookup(ScannedUpTo(a, postId, es, i), es[i].key) == es[i].value
    ensures Rewrites(es[i], postId) ==>
      Put(ScannedUpTo(a, postId, es, i), es[i].key, Updater(a, postId, es[i].value)) == ScannedUpTo(a, postId, es, i + 1)
    ensures !Rewrites(es[i], postId) ==> ScannedUpTo(a, postId, es, i) == ScannedUpTo(a, postId, es, i + 1)
  {
    var cur := ScannedUpTo(a, postId, es, i);
    IndexOfSameKeys(cur, es, es[i].key);
    assert IndexOf(es, es[i].key) == i;
    assert cur[i := Entry(es[i].key, Updater(a, postId, es[i].value))] == ScannedUpTo(a, postId, es, i + 1)
      || !Rewrites(es[i], postId);
    assert !Rewrites(es[i], postId) ==> cur == ScannedUpTo(a, postId, es, i + 1);
  }

  /** The body of the scan for the query at position `i`: when its key is
      selected and it holds data, record (key, data) and write back the
      updater's result. */
  method ScanQuery(qc: QueryClient, a: Action, postId: string, queries: seq<Entry>, i: nat,
                   previous: seq<Entry>, ghost stale0: set<Key>) returns (next: seq<Entry>)
    requires qc.Valid() && DistinctKeys(queries) && i < |queries|
    requires qc.entries == ScannedUpTo(a, postId, queries, i)
    requires previous == Snapshot(postId, queries[..i])
    requires qc.stale == stale0 - KeysOf(previous)
    modifies qc
    ensures qc.Valid()
    ensures qc.entries == ScannedUpTo(a, postId, queries, i + 1)
    ensures next == Snapshot(postId, queries[..i + 1])
    ensures qc.stale == stale0 - KeysOf(next)
  {
    var key := queries[i].key;
    assert queries[..i + 1] == queries[..i] + [queries[i]];
    SnapshotAppend(postId, queries[..i], queries[i]);
    ScanStep(a, postId, queries, i);
    next := previous;
    if Selected(key, postId) {
      var oldData := qc.GetQueryData(key);
      if Truthy(oldData) {
        KeysOfAppend(previous, Entry(key, oldData));
        next := previous + [Entry(key, oldData)];
        qc.SetQueryData(key, Updater(a, postId, oldData));
      }
    }
  }

  /** `onMutate`: scan every cached query; for each selected key that holds
      data, record (key, data) and write back the updater's result. */
  method ToggleOnMutate(qc: QueryClient, a: Action, postId: string) returns (previous: seq<Entry>)
    requires qc.Valid()
    modifies qc
    ensures qc.Valid()
    ensures qc.entries == Rewritten(a, postId, old(qc.entries))
    ensures previous == Snapshot(postId, old(qc.entries))
    ensures qc.stale == old(qc.stale) - KeysOf(previous)
  {
    var queries := qc.entries;
    previous := [];
    var i := 0;
    assert ScannedUpTo(a, postId, queries, 0) == queries;
    while i < |queries|
      invariant 0 <= i <= |queries|
      invariant qc.Valid()
      invariant qc.entries == ScannedUpTo(a, postId, queries, i)
      invariant previous == Snapshot(postId, queries[..i])
      invariant qc.stale == old(qc.stale) - KeysOf(previous)
    {
      previous := ScanQuery(qc, a, postId, queries, i, previous, old(qc.stale));
      i := i + 1;
    }
    assert queries[..i] == queries;
    assert ScannedUpTo(a, postId, queries, i) == Rewritten(a, postId, queries);
  }

  /** The body of the rollback for the snapshot at position `i`: write it back. */
  method RestoreQuery(qc: QueryClient, previous: seq<Entry>, i: nat, ghost entries0: seq<Entry>, ghost stale0: set<Key>)
    requires qc.Valid() && i < |previous|
    requires qc.entries == PutAll(entries0, previous[..i])
    requires qc.stale == stale0 - TruthyKeys(previous[..i])
    modifies qc
    ensures qc.Valid()
    ensures qc.entries == PutAll(entries0, previous[..i + 1])
    ensures qc.stale == stale0 - TruthyKeys(previous[..i + 1])
  {
    assert previous[..i + 1] == previous[..i] + [previous[i]];
    PutAllAppend(entries0, previous[..i], previous[i]);
    TruthyKeysAppend(previous[..i], previous[i]);
    qc.SetQueryData(previous[i].key, previous[i].value);
  }

  /** `onError`: write every snapshot back, in order. */
  method ToggleOnError(qc: QueryClient, previous: seq<Entry>)
    requires qc.Valid()
    modifies qc
    ensures qc.Valid()
    ensures qc.entries == PutAll(old(qc.entries), previous)
    ensures qc.stale == old(qc.stale) - TruthyKeys(previous)
  {
    assert previous[..0] == [];
    for i := 0 to |previous|
      invariant qc.Valid()
      invariant qc.entries == PutAll(old(qc.entries), previous[..i])
      invariant qc.stale == old(qc.stale) - TruthyKeys(previous[..i])
    {
      RestoreQuery(qc, previous, i, old(qc.entries), old(qc.stale));
    }
    assert previous[..|previous|] == previous;
  }

  /** `onSettled`: invalidate the post's own query, on success and on error. */
  method ToggleOnSettled(qc: QueryClient, postId: string)
    requires qc.Valid()
    modifies qc
    ensures qc.Valid()
    ensures qc.entries == old(qc.entries)
    ensures qc.stale == old(qc.stale) + KeysMatching(qc.entries, PostKey(postId))
  {
    qc.InvalidateQueries(PostKey(postId));
  }

  /** How the remote toggle call settled. */
  datatype RemoteOutcome = Succeeded | Failed

  /** One whole toggle: the optimistic rewrite, the rollback when the remote
      call fails, then the invalidation of the post's own query. */
  method ToggleMutation(qc: QueryClient, a: Action, postId: string, remote: RemoteOutcome)
    requires qc.Valid()
    modifies qc
    ensures qc.Valid()
    ensures remote == Succeeded ==> qc.entries == Rewritten(a, postId, old(qc.entries))
    ensures remote == Failed ==> qc.entries == old(qc.entries)
    ensures PostKey(postId) in KeysOf(qc.entries) ==> PostKey(postId) in qc.stale
    ensures qc.stale ==
      old(qc.stale) - KeysOf(Snapshot(postId, old(qc.entries))) + KeysMatching(qc.entries, PostKey(postId))
  {
    ghost var before := qc.entries;
    var previous := ToggleOnMutate(qc, a, postId);
    if remote == Failed {
      ToggleOnError(qc, previous);
      RollbackRestores(a, postId, before);
    }
    ToggleOnSettled(qc, postId);
  }

  /** Every snapshotted entry holds data, so writing the snapshots back
      writes every one of their keys. */
  lemma SnapshotKeysWritten(postId: string, es: seq<Entry>)
    ensures TruthyKeys(Snapshot(postId, es)) == KeysOf(Snapshot(postId, es))
  {
    var s := Snapshot(postId, es);
    forall k | k in KeysOf(s) ensures k in TruthyKeys(s) {
      var j :| 0 <= j < |s| && s[j].key == k;
      assert s[j] in s;
    }
  }

  /** One whole toggle when the toast calls inside the callbacks throw, as a
      hook called outside a component's render does. On failure, `onError`
      rolls back and then throws at its toast, so `onSettled` never runs. On
      success, `onSettled` invalidates the post's query and then throws at
      its toast; the mutation treats that as a failure and runs `onError`,
      which rolls back and throws again. */
  method ToggleMutationAsWritten(qc: QueryClient, a: Action, postId: string, remote: RemoteOutcome)
    requires qc.Valid()
    modifies qc
    ensures qc.Valid()
    ensures qc.entries == old(qc.entries)
    ensures remote == Failed ==> qc.stale == old(qc.stale) - KeysOf(Snapshot(postId, old(qc.entries)))
    ensures remote == Succeeded ==>
      qc.stale == old(qc.stale) + KeysMatching(Rewritten(a, postId, old(qc.entries)), PostKey(postId))
                  - KeysOf(Snapshot(postId, old(qc.entries)))
  {
    ghost var before := qc.entries;
    var previous := ToggleOnMutate(qc, a, postId);
    if remote == Succeeded {
      ToggleOnSettled(qc, postId);
    }
    ToggleOnError(qc, previous);
    RollbackRestores(a, postId, before);
    SnapshotKeysWritten(postId, before);
  }

  /** A post the current user has not liked yet, cached as the post's own query. */
  function UnlikedPost(): Post {
    Post("p", "u", UserRef("u", "u", "U", ""), "t", "", "", "", 0, 1, 0, 0, 0, false, false, "", true)
  }

  /** Where the two flows part, on the cache holding only `["post", "p"]`
      with UnlikedPost. A successful like must leave the post liked, but the
      as-written flow ends at the unchanged cache. A failed like must leave
      the post's query stale, but the as-written flow leaves it fresh. */
  lemma ToastThrowUndoesToggle()
    ensures var es := [Entry(PostKey("p"), Single(UnlikedPost()))];
      && Rewritten(Like, "p", es) != es
      && Lookup(Rewritten(Like, "p", es), PostKey("p")).post.isLiked
      && PostKey("p") in KeysMatching(es, PostKey("p"))
      && PostKey("p") !in {} - KeysOf(Snapshot("p", es))
  {
    var es := [Entry(PostKey("p"), Single(UnlikedPost()))];
    var r := Rewritten(Like, "p", es);
    assert r[0] == RewriteEntry(Like, "p", es[0]);
    assert r[0].value.post.isLiked;
    assert Lookup(r, PostKey("p")) == r[0].value;
    assert es[0] in Snapshot("p", es);
    assert MatchesPrefix(PostKey("p"), es[0].key);
  }

  /** `onSuccess` of an edit or a delete: invalidate the whole `posts` family;
      no cached data is rewritten. */
  method OnPostEditedOrDeleted(qc: QueryClient)
    requires qc.Valid()
    modifies qc
    ensures qc.Valid()
    ensures qc.entries == old(qc.entries)
    ensures qc.stale == old(qc.stale) + KeysMatching(qc.entries, Key("posts", []))
  {
    qc.InvalidateQueries(Key("posts", []));
  }
}
