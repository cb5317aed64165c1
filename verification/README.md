# Imaginify: utility helpers and the database connection cache

A Dafny model of two small pieces of the Imaginify web application (an
AI image-transformation app):

- **`lib/utils.ts`, the pure helpers** (module `Utils`, file `utils.dfy`):
  - `deepMergeObjects` merges two nested key/value trees. The first argument wins on conflicts. Where both sides hold an object, the two are merged recursively.
  - `formUrlQuery` and `removeKeysFromQuery` turn the page's search parameters into the parameter object handed to the query-string serializer. Only that map step is modelled.
  - `getImageSize` looks up a width or height and falls back to 1000.
- **`lib/database/mongoose.ts`, the connection cache** (module `Mongoose`, file `mongoose.dfy`). This is a two-slot state `(conn, promise)` kept for the life of the process. `connectToDatabase` and `disconnectFromDatabase` are modelled as state transitions.

`wrappers.dfy` defines `Option` and `Result`. In this model `Option` stands for JavaScript's null/undefined, and `Result` for a function that either returns a value or throws.

Modelling choices:

- Values in the merge are JSON-like: `Null | Bool | Num | Str | Obj(map)`.
  - Arrays are out of scope.
  - Numbers are integers.
  - `v && typeof v === "object"` is the predicate `IsObject`. It holds exactly for `Obj`, because null is falsy.
- The merge has two parts. `Merge` is a declarative reference definition that gives the rule for each key. `MergeObjectFields` follows the source's algorithm: copy `obj2`, then overwrite each key of `obj1`. It is proved to compute `Merge`.
- Search parameters are an ordered sequence of (key, value) entries. `Object.fromEntries` builds a map in which the last entry for a key wins.
- Things the cache cannot compute for itself are parameters:
  - the outcome of a fresh connect attempt (`Outcome = Ok(handle) | Err(cause)`);
  - the error, if any, thrown by closing a connection;
  - the `MONGODB_URL` setting. It counts as missing when it is undefined or empty.
- Each `await` is a single sequential step.
- The code keeps the rejected promise in `cached.promise`, so every later call rethrows the same failure without a new attempt. The model reproduces the code. The section "Findings" explains why this is evidently unintended and models a corrected connect beside it.

## Model

| member | source | states |
|---|---|---|
| `Utils.DeepMergeObjects` | lib/utils.ts:160-166 | An absent (null/undefined) second argument returns the first argument unchanged. Otherwise the result is the merge of the two, and an absent first argument contributes no keys. |
| `Utils.MergeObjectFields` | lib/utils.ts:168-189 | The algorithm as written (shallow copy of `obj2`, then one overwrite per own key of `obj1`, recursing where both sides are objects) computes exactly the per-key rule `Merge`. |
| `Utils.MergeKeys` | lib/utils.ts:168-189 | The merged object's key set is exactly keys(obj1) ∪ keys(obj2). |
| `Utils.MergeSecondOnly` | lib/utils.ts:168 | A key that only obj2 has keeps obj2's value. |
| `Utils.MergeFirstWins` | lib/utils.ts:175-187 | For a key of obj1 where the two sides are not both non-null objects, obj1's value wins. This includes null, 0, false and "", and holds even when obj2 has an object there. |
| `Utils.MergeRecurses` | lib/utils.ts:175-184 | For a key where both sides are non-null objects, the result is the recursive merge of the two sub-objects. |
| `Utils.MergeIntoEmpty` | lib/utils.ts:168-170 | Merging into an empty (or absent) first object yields a copy of obj2. |
| `Utils.MergeDisjoint` | lib/utils.ts:168-189 | When the two objects share no key, the deep merge equals the plain union. |
| `Utils.MergeSelf` | lib/utils.ts:168-189 | merge(x, x) = x at every depth. |
| `Utils.MergeIdempotent` | lib/utils.ts:168-189 | merge(merge(a, b), b) = merge(a, b): merging the same second object again changes nothing. |
| `Utils.MergeAbsorbs` | lib/utils.ts:168-189 | merge(a, merge(a, b)) = merge(a, b): merging the first object over the result changes nothing. |
| `Utils.MergePreservesFirst` | lib/utils.ts:175-187 | Every leaf of obj1 appears unchanged at the same path in the result, and every object of obj1 is matched by an object there. |
| `Utils.FromEntriesKey` | lib/utils.ts:71 | A key is in the parameter object exactly when some search-parameter entry carries it. |
| `Utils.FromEntriesLastWins` | lib/utils.ts:71 | A key's value is the value of the last entry that carries it. |
| `Utils.FormUrlQuery` | lib/utils.ts:71-72 | The updated parameters have keys current ∪ {key}. They map `key` to `value` and leave every other entry with its current value. |
| `Utils.SetParamLastWins` | lib/utils.ts:72 | Setting the same key twice keeps only the second value. |
| `Utils.RemoveKeysFromQuery` | lib/utils.ts:85-94 | The result has no key from `keysToRemove`. Every other original key is kept with its original value. |
| `Utils.RemoveIsDropKeys` | lib/utils.ts:87-89 | Such a result equals the reference set difference `DropKeys`. |
| `Utils.DropUndoesSet` | lib/utils.ts:87-89 | Removing a key undoes setting it. |
| `Utils.DropKeysIdempotent` | lib/utils.ts:87-89 | Removing the same keys a second time changes nothing. |
| `Utils.GetImageSize` | lib/utils.ts:121-133 | For "fill" the size is looked up in the aspect-ratio table under the image's aspect ratio (the key "undefined" when it has none), otherwise in the image. It is 1000 when that lookup is missing or 0, and the looked-up value otherwise, so it is never 0. |
| `Utils.ImageSizeIgnoresTable` | lib/utils.ts:132 | Outside "fill", the aspect-ratio table has no influence on the size. |
| `Utils.FillIgnoresImageDimensions` | lib/utils.ts:126-130 | For "fill", only the image's aspect-ratio key matters, not its own width or height. |
| `Mongoose.Connect` | lib/database/mongoose.ts:27-51 | A successful call leaves `conn` set to the handle it returns. A failing call leaves `conn` null. A call that leaves no promise changes nothing. The reachable-state invariant `Coherent` is preserved. |
| `Mongoose.Disconnect` | lib/database/mongoose.ts:53-59 | A successful disconnect leaves `conn` null. One whose close throws changes nothing. `Coherent` is preserved. |
| `Mongoose.ConnectReturnsCached` | lib/database/mongoose.ts:28 | With `conn` set, connect returns it and changes nothing, even when the URL is missing. |
| `Mongoose.ConnectMissingUrl` | lib/database/mongoose.ts:30-32 | With no `conn` and no URL, connect throws "Missing MONGODB_URL environment variable" and the state is unchanged. |
| `Mongoose.ConnectReusesPromise` | lib/database/mongoose.ts:34-45 | With a promise cached, the result and the new state do not depend on the fresh attempt. Without a connection and with a URL, the call returns or throws what the cached promise settles to, and that promise stays in its slot. |
| `Mongoose.ConnectStartsAttempt` | lib/database/mongoose.ts:34-45 | With both slots null and a URL, the fresh attempt is cached as the promise, and the call returns or throws what that attempt settles to. |
| `Mongoose.ConnectFailureCaches` | lib/database/mongoose.ts:44-48 | A failing connect with a URL leaves `conn` null and the rejected promise cached. It throws "Failed to connect to MongoDB: " followed by the cause. |
| `Mongoose.ConnectMany` | lib/database/mongoose.ts:27-51 | A run of connect calls yields one result per call and preserves `Coherent`. |
| `Mongoose.ConnectedIsFinal` | lib/database/mongoose.ts:28 | Once connected, every later connect call, with no disconnect in between, returns the same connection and the cache stays as it is. |
| `Mongoose.LaterCallsReturnSameHandle` | lib/database/mongoose.ts:45-50 | After a successful connect, every later connect call, with no disconnect in between, returns the same handle. |
| `Mongoose.FailureIsSticky` | lib/database/mongoose.ts:34-48 | With a rejected promise cached and a URL present, every later connect throws the same failure, whatever attempts are offered, and the state stays fixed. |
| `Mongoose.OnlyFirstAttemptConsulted` | lib/database/mongoose.ts:34-50 | From a fresh process with a URL, in a run of connect calls with no disconnect, every call returns or throws what the first call's attempt settles to. |
| `Mongoose.DisconnectWithoutConnection` | lib/database/mongoose.ts:54 | With `conn` null, disconnect does nothing, even when a promise is cached. |
| `Mongoose.DisconnectResets` | lib/database/mongoose.ts:56-58 | With `conn` set and a close that succeeds, disconnect clears both `conn` and `promise`. |
| `Mongoose.ReconnectAfterDisconnect` | lib/database/mongoose.ts:56-58 | After a disconnect that closes a live connection successfully, the next connect with a URL settles to its own attempt. |
| `Mongoose.RunStaysCoherent` | lib/database/mongoose.ts:27-59 | Any sequence of connects and disconnects preserves `Coherent`. |
| `Mongoose.RejectionIsPermanent` | lib/database/mongoose.ts:44-54 | Once a rejected promise is cached without a connection, no sequence of connects and disconnects changes the cache: connects rethrow it and disconnect returns early. |
| `Mongoose.ReachableIsCoherent` | lib/database/mongoose.ts:18-21 | Every state reachable from the initial empty cache satisfies `Coherent`: a set `conn` is always paired with the resolved promise that produced it, and a promise cached without a `conn` is always a rejected one. |
| `Mongoose.StickyFailureExample` | lib/database/mongoose.ts:44-48 | As written, after one rejected attempt a second call still throws the first failure, even though the attempt offered to it would succeed. |
| `Mongoose.ConnectRetrying` | lib/database/mongoose.ts:44-48 | Corrected connect that drops a rejected promise. It satisfies the same success and failure rules, and it preserves `NoRejection`, the invariant that no rejection is ever cached. |
| `Mongoose.RetryAfterFailure` | lib/database/mongoose.ts:44-48 | With the correction, the call after a failure returns or throws what its own attempt settles to. |

## Left out

- `cn`: class-name joining, which is done entirely by the clsx and tailwind-merge libraries.
- `handleError`: console logging plus `JSON.stringify` of arbitrary values.
- `shimmer`, `toBase64` and `dataUrl`: SVG text templating and base64 encoding through `Buffer`/`btoa`.
- `debounce`: it depends on timers.
- `download`: it uses fetch and the DOM.
- The final string assembly in `formUrlQuery` and `removeKeysFromQuery` is left out. That step is `qs.stringify` plus `window.location.pathname`.
- The conversion of number and boolean parameter values to text is left out, because the serializer does it.
- `RemoveKeysFromQuery`: the second pass (lib/utils.ts:92-94) deletes null or undefined values. It is not modelled as a step, because every value read from the search parameters is a string, so the pass never deletes anything.
- `DeepMergeObjects`: arrays are out of scope. JavaScript treats arrays as objects keyed by index.
- `DeepMergeObjects`: properties whose value is `undefined` are out of scope.
- `DeepMergeObjects`: keys inherited through prototypes are out of scope. Only own properties are modelled, as `hasOwnProperty` selects them.
- `DeepMergeObjects`: the TypeError thrown by `obj1.hasOwnProperty(key)` (lib/utils.ts:171) is not modelled. It happens when obj1 has an own property named "hasOwnProperty" that is not a function, or has no prototype. The model returns a merge for such inputs.
- `DeepMergeObjects`: the special key `"__proto__"` is treated as an ordinary key. In the source, reading `obj2["__proto__"]` yields the prototype (line 173), and assigning `output["__proto__"]` (lines 181 and 186) replaces the output's prototype instead of adding a key, unless obj2 has an own `__proto__` property (as `JSON.parse` creates), which the spread at line 168 copies as an ordinary key.
- `DeepMergeObjects`: values are immutable trees, so object identity is not modelled. The source's result shares sub-objects with both inputs (lines 168 and 186), and line 165 returns obj1 itself.
- `DeepMergeObjects`: maps are unordered, so key order is not modelled. The source's output lists obj2's keys first and then obj1's new keys, apart from integer-like keys, which come first in ascending order.
- `FormUrlQuery`: `Number` holds integers only. The non-integer numbers (and NaN and the infinities) that `value: number` accepts (lib/utils.ts:56) are not modelled.
- `GetImageSize`: numbers are integers, so NaN, which is also falsy, is not modelled.
- `GetImageSize`: the image argument is always present, as its type requires. The `image?.` guard for an undefined image is therefore not modelled.
- `GetImageSize`: the aspect-ratio table is a parameter. The `@/constants` module that defines it is not part of this model.
- The real mongoose connect and its options (lib/database/mongoose.ts:36-42) are left out. A fresh attempt is represented only by its outcome.
- The global bootstrap of the cache (lib/database/mongoose.ts:18-25) is left out. The model starts from the empty state.
- Interleavings of concurrent callers around `await` are not modelled. Each call runs to completion before the next one starts.
- `MONGODB_URL` is read once when the module loads. The model passes it to each call, and the lemmas about runs of calls hold it fixed.
- `components/shared/Checkout.tsx` is not modelled. It is React UI: payment-form loading and toasts.
- The transformation update page is not modelled. It is page rendering.
- The credit ledger, payment webhooks and balance arithmetic are not part of this model. Their source is not among the files modelled.

## Findings

| source | as written | input that shows it | evidently intended | confidence | as-written member | corrected member |
|---|---|---|---|---|---|---|
| lib/database/mongoose.ts:44-48 | When awaiting `cached.promise` throws, the catch block rethrows without clearing `cached.promise`, so the rejected promise stays cached for the life of the process (disconnect returns early without a connection, line 54) | first call with a URL whose attempt rejects with "timeout"; second call whose attempt would connect | clear `cached.promise` in the catch, so that one transient failure (for example the 5000 ms server-selection timeout set at line 40) does not disable the database until the process restarts | medium, not executed | `Mongoose.StickyFailureExample` | `Mongoose.RetryAfterFailure` |

The main model (`Connect`, and every lemma above `ConnectRetrying`) describes the code as written. `ConnectRetrying` is the corrected transition.
