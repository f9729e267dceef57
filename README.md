# Optimistic post toggles and streamed chat replies

This project models the two pieces of client-side logic in the docgram web
client that work on the shared query cache. It proves properties of both.

- **Optimistic toggles** (`web/src/hooks/use-posts.ts`). Like, bookmark and
  visibility each run the same `onMutate`, `onError` and `onSettled`.
  `onMutate` scans every cached query and selects the keys of family `posts`
  or `feed`, and the key `["post", postId]`. For each selected key that holds
  data, it records the old data and writes back `updater(old)`. `onError`
  writes the recorded data back. `onSettled` invalidates `["post", postId]`.
  The model writes this once, parametrised by an `Action`
  (`Like | Bookmark | Visibility`).
- **Streamed chat replies** (`web/src/hooks/use-chat.ts`). `useSendMessage`
  first appends the user's message to `["chat-messages", postId]`. It then
  checks the reply's status and body, and appends an empty assistant
  placeholder. Finally it appends every chunk read from the body to the
  placeholder's content. On any failure it invalidates the thread. The
  chat dialog's send handler (`web/src/components/pdf-chat-modal.tsx`) trims
  the input and sends nothing when the input is blank or no document id is given.

Files:

- `entities.dfy` (module `Entities`). The cached records: `Post`,
  `ChatMessage`, and `Value`, the shape of one query's data. `Absent` stands
  for every falsy value. An empty array is truthy, so it is a `List`.
- `query_cache.dfy` (module `QueryCache`). The query cache the hooks write
  through.
  - Pure functions describe the data: `Lookup`, `Put`, `PutAll`, and
    prefix key matching.
  - The class `QueryClient` holds `entries` (the cached queries in the order
    `findAll` lists them, with distinct keys) and `stale` (the invalidated
    keys).
  - `setQueryData` does nothing for undefined data. Any other data is
    written and clears the key's invalidated mark, as TanStack Query's
    success reducer does.
- `post_toggles.dfy` (module `PostToggles`). The updater, the scan, the
  rollback and the settle invalidation.
  - `Rewritten` specifies the scan's effect on the cache.
  - `Snapshot` specifies the recorded list.
- `js_text.dfy` (module `JsText`). `String.prototype.trim` over the
  ECMAScript white space and line terminator code points.
- `chat_stream.dfy` (module `ChatStream`). The send: appends, reply checks,
  the read loop, the invalidation on failure, and the dialog's guard.

Three behaviours of the code that the model keeps:

- The post query is invalidated in `onSettled`, so on failure as well as on
  success (`use-posts.ts:175-176`). This holds when the toast calls in the
  callbacks return normally; see "## Findings" for what happens when they
  throw.
- Only selected queries that hold truthy data are snapshotted
  (`use-posts.ts:156`).
- A failed send does not discard the optimistic messages. It only
  invalidates the thread (`use-chat.ts:118`), so the model marks the key
  stale and leaves the cached messages in place.

## Model

| member | source | states |
|---|---|---|
| QueryCache.Lookup | web/src/hooks/use-posts.ts:155 | `getQueryData`: a key with no query reads as Absent; with distinct keys, a key's data is the data of its entry |
| QueryCache.Put | web/src/hooks/use-posts.ts:158 | `setQueryData` writes the key and no other. The key then reads as the new data and every other key reads as before. Keys stay distinct. For an existing key, every entry keeps its position and every other entry is unchanged; a new key is added at the end |
| QueryCache.PutPut | web/src/hooks/use-chat.ts:105-111 | Two writes to the same key leave only the second |
| QueryCache.PutAll | web/src/hooks/use-posts.ts:166-168 | Writing a list of (key, data) pairs in order, skipping undefined data, keeps keys distinct and leaves every key with no defined write reading as before |
| QueryCache.TruthyKeys | web/src/hooks/use-posts.ts:166-168 | The keys such a sequence of writes actually writes: exactly the keys of entries with defined data, a subset of all the keys |
| QueryCache.KeysMatching | web/src/hooks/use-posts.ts:176 | The keys an invalidation prefix reaches: exactly the existing keys with the prefix's family whose parameters start with the prefix's parameters |
| QueryCache.QueryClient.SetQueryData | web/src/hooks/use-posts.ts:158 | For defined data, the new entries are `Put` of the old ones and the key's invalidated mark is cleared. For undefined data, nothing changes |
| QueryCache.QueryClient.UpdateQueryData | web/src/hooks/use-chat.ts:62-64 | `setQueryData(key, fn)`: writes `fn` applied to the key's current data and clears the key's mark; when `fn` gives undefined, nothing changes |
| QueryCache.QueryClient.InvalidateQueries | web/src/hooks/use-posts.ts:176 | Data unchanged; every existing key the prefix matches is added to the stale set |
| PostToggles.UpdatePost | web/src/hooks/use-posts.ts:121-131 | The post with id `postId` gets its action's flag negated; every other field is kept. A like also moves `likes_count` down by one if it was liked, otherwise up by one. Bookmark (204-212) and visibility (337-345) touch only their own flag. A post with another id is returned as it is |
| PostToggles.UpdatePostTwice | web/src/hooks/use-posts.ts:121-131 | Toggling a post twice gives back the post, counter included |
| PostToggles.UpdatePostKeepsLikeConsistent | web/src/hooks/use-posts.ts:126-128 | A toggle keeps `likes_count` non-negative, and at least 1 while liked, if it was so before |
| PostToggles.Updater | web/src/hooks/use-posts.ts:118-143 | Falsy data and non-post data are returned as they are. A list keeps its length and order; each post goes through `updatePost`, so posts with other ids are unchanged. A single post with another id is returned as it is; with the matching id it becomes `updatePost` of it, so its flag, like counter and other fields are as `UpdatePost` states |
| PostToggles.UpdaterTwice | web/src/hooks/use-posts.ts:118-143 | Round trip: the same action's updater applied twice gives back the original data, `likes_count` included |
| PostToggles.Selected | web/src/hooks/use-posts.ts:150-154 | The scan's key test: family `posts` or `feed`, or family `post` whose second element is the post id. What it selects is stated by `SelectedKeys` |
| PostToggles.SelectedKeys | web/src/hooks/use-posts.ts:150-154 | The scan selects every `posts` page, every `feed` page, every search key `["posts","search",q]` (line 439) and `["post", postId]`. It does not select another post's key, bookmarks, profile posts, the profile, comments or chat messages |
| PostToggles.Rewritten | web/src/hooks/use-posts.ts:148-161 | After the scan the cache has the same keys in the same order |
| PostToggles.RewrittenLookup | web/src/hooks/use-posts.ts:148-161 | After the scan every selected key holds the updater's result, and every other key holds its old data |
| PostToggles.Snapshot | web/src/hooks/use-posts.ts:155-158 | `previousQueries` holds exactly the (key, pre-update data) entries whose key is selected and whose data is truthy |
| PostToggles.RollbackRestores | web/src/hooks/use-posts.ts:165-168 | Writing every snapshot back over the rewritten cache gives exactly the cache as it was before `onMutate` |
| PostToggles.ToggleTwiceRestores | web/src/hooks/use-posts.ts:148-161 | Two successful scans with the same action and post give back the original cache |
| PostToggles.ScanQuery | web/src/hooks/use-posts.ts:149-159 | One iteration of the scan. It moves the cache and the snapshot on by one query and clears the mark of any key it writes |
| PostToggles.ToggleOnMutate | web/src/hooks/use-posts.ts:145-163 | Afterwards the cache is `Rewritten(old cache)`, the returned list is `Snapshot(old cache)`, and the rewritten keys lose their stale mark |
| PostToggles.ToggleOnError | web/src/hooks/use-posts.ts:165-168 | Every snapshot is written back in order: the cache is `PutAll(cache, snapshots)`, and exactly the keys written lose their stale mark |
| PostToggles.RestoreQuery | web/src/hooks/use-posts.ts:166-168 | One step of the rollback: writing back the snapshot at position `i` moves the cache and the stale set on by one snapshot |
| PostToggles.ToggleOnSettled | web/src/hooks/use-posts.ts:175-176 | Data unchanged; the post's own query is marked stale |
| PostToggles.ToggleMutation | web/src/hooks/use-posts.ts:105-186 | On success the cache is the rewritten cache. On failure it is exactly the cache before the toggle. Either way `["post", postId]` ends up stale when it is cached |
| PostToggles.SnapshotKeysWritten | web/src/hooks/use-posts.ts:156-157 | Every snapshotted entry holds data, so writing the snapshots back writes every one of their keys |
| PostToggles.ToggleMutationAsWritten | web/src/hooks/use-posts.ts:165-184 | The toggle when the toast hook called inside `onError` (169) and `onSettled` (177) throws. Either way the cache ends exactly as it was before the toggle. On failure the post's query is not invalidated. On success it is invalidated at 176, and the rollback writes then clear the marks of the snapshotted keys again |
| PostToggles.ToastThrowUndoesToggle | web/src/hooks/use-posts.ts:169-177 | On a cache holding only an unliked `["post", "p"]`, a successful like must leave the post liked, yet the as-written flow ends at the unchanged cache. A failed like must leave the post's query stale, yet the as-written flow leaves it fresh |
| PostToggles.OnPostEditedOrDeleted | web/src/hooks/use-posts.ts:293-294 | An edit or delete (also 311-312) rewrites no data and marks the whole `posts` family stale |
| JsText.TrimStart | web/src/components/pdf-chat-modal.tsx:72 | The result is a suffix of the input that does not start with white space, and what it drops is all white space |
| JsText.TrimEnd | web/src/components/pdf-chat-modal.tsx:72 | The result is a prefix of the input that does not end with white space, and what it drops is all white space |
| JsText.Trim | web/src/components/pdf-chat-modal.tsx:72-74 | `inputValue.trim()`: a contiguous middle of the input, with only white space before and after it, that neither starts nor ends with white space |
| JsText.TrimEmptyIffBlank | web/src/components/pdf-chat-modal.tsx:72 | `inputValue.trim()` is empty exactly when the input is all white space (both directions) |
| JsText.TrimmedNotBlank | web/src/components/pdf-chat-modal.tsx:74 | The trimmed query that is sent is never blank |
| JsText.TrimIdempotent | web/src/components/pdf-chat-modal.tsx:74 | Trimming the trimmed query changes nothing |
| ChatStream.MessagesQueryEnabled | web/src/hooks/use-chat.ts:16 | Transcribes `enabled: !!postId && enabled` of the messages query |
| ChatStream.DialogPostId | web/src/components/pdf-chat-modal.tsx:35-38 | Transcribes `pdfId ?? ""`: the dialog's optional document id as a post id, empty exactly when `!pdfId` |
| ChatStream.DialogMessagesQuery | web/src/components/pdf-chat-modal.tsx:35-38 | The dialog's messages query runs exactly when the dialog is open and a non-empty document id is given. It then reads the thread that a send about that document writes |
| ChatStream.AppendMessage | web/src/hooks/use-chat.ts:62-64 | The message is added at the end of the cached thread, and earlier messages keep their order. Falsy data becomes the one-element list |
| ChatStream.AppendChunk | web/src/hooks/use-chat.ts:105-111 | Same length. The message with the placeholder's id gets `content + chunk` and keeps its id, role and timestamp. Every other message is unchanged |
| ChatStream.AddChunk | web/src/hooks/use-chat.ts:105-111 | The updater for one chunk: a cached thread becomes `AppendChunk` of it, and any other data is kept as it is |
| ChatStream.Streamed | web/src/hooks/use-chat.ts:96-112 | Streaming any number of chunks keeps the thread's length |
| ChatStream.ConcatPrefix | web/src/hooks/use-chat.ts:96-112 | The content after any chunk is a prefix of the content after any later chunk |
| ChatStream.StreamedLast | web/src/hooks/use-chat.ts:96-112 | After the stream, the placeholder's content is its initial content followed by every chunk in arrival order |
| ChatStream.StreamedPlaceholder | web/src/hooks/use-chat.ts:105-111 | When no earlier message has the placeholder's id, the stream changes the placeholder's content and nothing else |
| ChatStream.HelloWorld | web/src/hooks/use-chat.ts:96-112 | Chunks "Hel", "lo", " world" show "Hel", then "Hello", then "Hello world" |
| ChatStream.UserMessage | web/src/hooks/use-chat.ts:55-60 | Transcribes the optimistic user message: temporary id, role `user`, the query as content, a timestamp |
| ChatStream.Placeholder | web/src/hooks/use-chat.ts:82-88 | Transcribes the assistant placeholder: temporary id, role `assistant`, empty content, a timestamp |
| ChatStream.SendOutcome | web/src/hooks/use-chat.ts:72-78 | The send succeeds exactly when the status is 200, a body is present and the stream ends normally. It fails with "request failed" exactly on a transport error, with "not ok" exactly when the status is not 200, with "missing body" exactly when the status is 200 and the body is absent, and with "read failed" exactly when both checks pass and reading the stream fails |
| ChatStream.ThreadShape | web/src/hooks/use-chat.ts:62-94 | After a send, the thread is the earlier messages, then the user's message. If the reply passed both checks, it then has one assistant message holding all the chunks. Otherwise there is no placeholder. With a fresh placeholder id the whole thread is exactly that |
| ChatStream.StreamStep | web/src/hooks/use-chat.ts:105-111 | Writing one chunk into the cached thread advances the cache by exactly one chunk |
| ChatStream.StreamIntoPlaceholder | web/src/hooks/use-chat.ts:96-112 | The read loop leaves the cached thread equal to the stream of all chunks into the placeholder. The loop invariant holds the placeholder content equal to the chunks read so far, each a prefix of the final content. Each chunk written clears the thread's stale mark |
| ChatStream.SendMessage | web/src/hooks/use-chat.ts:46-119 | The result is the reply's outcome, and the cached thread is `Thread(...)` of the data before the send. On failure the thread key is stale; on success it is not |
| ChatStream.HandleSendMessage | web/src/components/pdf-chat-modal.tsx:71-76 | Blank input or a missing document id: nothing is sent and the cache is unchanged. Otherwise the trimmed input is sent: the result, the cached thread and the stale set are those `SendMessage` states, so the thread is stale after a failure and not after a success |

## Left out

- `cancelQueries`, background refetching and cache expiry are not modelled. Invalidation only marks keys stale.
- Toast notifications are not modelled. This includes the second error toast raised from both `onError` and `onSettled`. Whether the toast calls return or throw changes the cache, which is covered below and under "## Findings".
- PostToggles.ToggleMutation: assumes that `useToast()` returns normally inside `onError` and `onSettled` (`use-posts.ts:169`, `177`; `249`, `257`; `382`, `390`). The hook comes from `web/src/hooks/use-toast`, which is not part of this model. If it is the usual React hook, calling it outside a render throws. Then a failed toggle rolls back but skips `onSettled`, so the post's query is not invalidated. A successful toggle invalidates it and is then rolled back by `onError`. `ToggleMutationAsWritten` models that flow.
- Concurrency is not modelled. A toggle or a send runs without interleaving. Each suspension point is treated as a point where nothing else touches the cache:
  - `await queryClient.cancelQueries()` (`use-posts.ts:114`);
  - the remote toggle call (`use-posts.ts:109-111`), which runs between `onMutate` and `onError`/`onSettled`;
  - the POST of the question (`use-chat.ts:66-70`), between the user append and the placeholder append;
  - each `reader.read()` (`use-chat.ts:97`).
  Races between two toggles of the same post, or a refetch landing during a send, are out of scope.
- `TextDecoder` is not modelled. Chunks arrive already decoded as strings.
- `Date.now()` and `new Date().toISOString()` are not modelled. The temporary ids and timestamps are a parameter (`Stamps`). Results that need a fresh placeholder id say so in their hypotheses.
- The transport is not modelled. Whether the HTTP client rejects a non-2xx status itself or hands it back is decided inside `web/src/lib/api-client`, which is not part of this model. Both paths end in `onError`, so a `Reply` is either a transport error or a status with an optional body.
- Chat-thread data other than a message list or nothing is not modelled. The code spreads any other array, or a string, into the new list. It throws on any truthy value that is not iterable: a plain object, a non-zero number, `true`. The model reads all such data as an empty thread.
- The placeholder append at `use-chat.ts:91-94` spreads `oldData` without a guard. The model reuses `AppendMessage`, which agrees because the user append has just stored a list.
- PostToggles.UpdatePost: `likes_count` and the other `number` fields are JavaScript doubles, modelled as unbounded integers. The ±1 step and the round trip are exact in the code only below 2^53.
- `Absent` stands for every falsy value. `setQueryData` skips only `undefined`: a write of `null` would be stored, and the model skips it too. No modelled flow writes falsy data.
- Cached data under a selected key that is neither a post nor a list of posts is returned unchanged by `Updater`. The model assumes such data (`Other`) has no `id` equal to the post id.
- `useDeleteMessage` is not modelled. Its `onSuccess` receives the server's response in place of the variables (`use-chat.ts:34-36`), so the key it invalidates depends on a response body that is not part of this model.
- `setInputValue("")` and the rest of the dialog's local state are not modelled. They are UI.
- The other hooks are not modelled: post creation, comments, search fetching and the user profile. They only build requests.
- The other pages and components, the auth store, the infrastructure script and configuration are not modelled. They hold no cache logic.
- PostToggles.Rewritten: states only that keys and order are kept. What each entry holds is stated by `RewrittenLookup` and `ToggleOnMutate`.
- ChatStream.Streamed: states only that the length is kept. The placeholder's content and the untouched messages are stated by `StreamedLast` and `StreamedPlaceholder`.

## Findings

| source | as written | input that shows it | evidently intended | confidence | as-written member | corrected member |
|---|---|---|---|---|---|---|
| web/src/hooks/use-posts.ts:169-177 | `onError` and `onSettled` call the `useToast()` hook inside the callbacks, outside any render. Also at 249/257 and 382/390 | Like an unliked post `p` whose query `["post","p"]` is cached. If the server accepts, `onSettled` throws at 177 and `onError` rolls the like back. If the server refuses, `onError` throws at 169 and `["post","p"]` is never invalidated | The optimistic state stays after a success. The post's query is invalidated after either outcome. The toast is taken from the hook's top level, as `useCreatePost` does at line 78 | medium: not executed; depends on `use-toast`, which is not part of this model, being the usual hook that throws outside a render | PostToggles.ToggleMutationAsWritten, PostToggles.ToastThrowUndoesToggle | PostToggles.ToggleMutation |
