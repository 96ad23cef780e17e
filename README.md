# Chaining executor of things-framework, in Dafny

This project models the message-dispatch engine of things-framework: the
`ThingsChainingExecutor` of the things-engine module. For every inbound
(`input`) or outbound (`output`) message the executor does four things:

1. It derives routing keys from the message. `extractMiddlePart` takes the
   method-type token out of the dotted method name. `getKeys` builds four
   (identifier, product code) keys and a cache key, the `keyFlag`. The four
   keys cross an exact or wildcard identifier with an exact or wildcard
   product code.
2. It resolves the filter, handler and interceptor chains. `getChains` looks
   up every key in a two-dimensional registration table and unions the cells
   into a linked set. It keeps the entries of the right stream direction (and,
   for handlers, those whose `canHandle` accepts the request), then sorts them
   stably by `order`.
3. It caches the resolved bundle under the `keyFlag` in a bounded cache
   (capacity 1000) with get-or-compute semantics.
4. It runs the pipeline `doChain`:
   - no handler means a `ThingsException` with SERVICE_UNAVAILABLE;
   - the filter chain runs outside the `try`;
   - pre-handle stops at the first `false`;
   - then every handler, then post-handle;
   - after-completion runs in the `finally` block and receives the captured
     exception.

The modules follow that structure:

- `ThingsTypes` (`things_types.dfy`): message, direction and error values.
- `MethodName` (`method_name.dfy`): Java's `String.split("\\.")` and
  `extractMiddlePart`.
- `ChainingKeys` (`chaining_keys.dfy`): `getKeys` and the `keyFlag`.
- `Chains` (`chains.dfy`): `getChains`, meaning the linked union, the filter
  and the stable insertion sort.
- `Resolution` (`resolution.dfy`): `filter`, `getInterceptors`,
  `getHandlers` and the bundle the cache supplier builds.
- `LruCache` (`lru_cache.dfy`): the bounded cache, as a class over a map.
- `Pipeline` (`pipeline.dfy`): `doChain` after resolution and the three
  interceptor loops. It is written as methods with loops, each proved equal
  to a specification function that returns the trace of hook calls and the
  outcome.
- `ChainingExecutor` (`executor.dfy`): the executor class that owns the cache
  (`getChainingValues`, `doChain`, `input`, `output`).

Code the executor calls but that is not part of this model enters as
parameters:

- `ThingsMethodType.getMethodType` and `ThingsUtils.subIdentifies`;
- the separator and wildcard constants;
- the iteration order of the `HashSet` of keys;
- `ThingsFiltering.Chain`;
- what plugins do: `preHandle` answers, `canHandle` answers, and which hooks
  throw.

The model follows the code, including where it behaves in ways a reader of
the framework would not expect:

- **One-segment method names.** The guard `parts.length >= 1` in
  `extractMiddlePart` (ThingsChainingExecutor.java:176) reads like a fallback
  for short names, but the next line reads `parts[1]`. So a one-segment name
  raises an `ArrayIndexOutOfBoundsException`, and ALL_METHOD comes back only
  when the split is empty (a name made of dots only).
- **Filter short-circuit.** `doFilterChain` returns nothing, so `doChain`
  cannot tell a filter that did not pass the request on from a filter chain
  that ran to the end. The interceptors and handlers run in both cases.
- **Cached `canHandle`.** `getHandlers` calls `canHandle` inside the cache
  supplier, so the handler chain is cached with the answers of the request
  that missed. A later request on the same `keyFlag` gets that chain, which
  matches its own resolution only when its handlers answer the same.
- **Tie order.** The sort compares `order` only and is stable, so entries of
  equal order keep the order in which the linked union first saw them. Within
  one cell that is the cell's own set order. The iteration order of the key
  `HashSet` decides only which cell is visited first.
- **Errors are not captured.** `catch (Exception e)` does not catch a
  `java.lang.Error`. For an Error, afterCompletion receives null, and the
  Error still propagates.
- **The `keyFlag` fields are not escaped.** The fields are joined with the
  separator, but a separator inside an identifier or a product code is not
  escaped. Two routes can then share one flag.

## Model

Source paths are relative to the repository root. All rows cite
`things-engine/src/main/java/cn/huangdayu/things/engine/core/executor/ThingsChainingExecutor.java`.

| member | source | states |
|---|---|---|
| MethodName.DropTrailingEmpty | things-engine/src/main/java/cn/huangdayu/things/engine/core/executor/ThingsChainingExecutor.java:175 | the split keeps a prefix of the dot-separated pieces that is empty or ends with a non-empty piece, and everything it drops is empty |
| MethodName.Split | things-engine/src/main/java/cn/huangdayu/things/engine/core/executor/ThingsChainingExecutor.java:175 | no part of the split contains a dot, and a name that contains a dot never yields a trailing empty part |
| MethodName.ExtractMiddlePart | things-engine/src/main/java/cn/huangdayu/things/engine/core/executor/ThingsChainingExecutor.java:174-180 | extraction fails exactly when the split has one part, and then with ArrayIndexOutOfBounds(1, 1); a token it returns contains no dot |
| MethodName.PiecesJoin | things-engine/src/main/java/cn/huangdayu/things/engine/core/executor/ThingsChainingExecutor.java:175 | cutting a name at its dots and gluing the pieces back with dots gives the name again, and no piece contains a dot |
| MethodName.MiddleOfDottedName | things-engine/src/main/java/cn/huangdayu/things/engine/core/executor/ThingsChainingExecutor.java:174-178 | a name "prefix.type" or "prefix.type.more" with a non-empty, dot-free type yields that type |
| MethodName.SingleSegmentFails | things-engine/src/main/java/cn/huangdayu/things/engine/core/executor/ThingsChainingExecutor.java:176-177 | a one-segment name, even with trailing dots, splits into one part, and reading part 1 raises ArrayIndexOutOfBounds(1, 1) |
| MethodName.NoPartsIffOnlyDots | things-engine/src/main/java/cn/huangdayu/things/engine/core/executor/ThingsChainingExecutor.java:175-179 | the split is empty exactly when the name is non-empty and made of dots only, and only then is ALL_METHOD returned by way of the empty split |
| ChainingKeys.RouteKeys | things-engine/src/main/java/cn/huangdayu/things/engine/core/executor/ThingsChainingExecutor.java:167-170 | every derived key has an identifier that starts with methodType+separator, and a product code that is the message's own or the wildcard |
| ChainingKeys.KeyFlag | things-engine/src/main/java/cn/huangdayu/things/engine/core/executor/ThingsChainingExecutor.java:171 | the flag starts with the direction's name followed by the separator |
| ChainingKeys.GetKeys | things-engine/src/main/java/cn/huangdayu/things/engine/core/executor/ThingsChainingExecutor.java:162-172 | getKeys fails exactly when the method name splits into one part, with the index error; otherwise the flag starts with the direction's name |
| ChainingKeys.GetKeysSpec | things-engine/src/main/java/cn/huangdayu/things/engine/core/executor/ThingsChainingExecutor.java:162-172 | getKeys fails exactly when the method type cannot be extracted, and then with the index error; otherwise it returns at most 4 keys, all under the prefix methodType+separator, including the exact key and the all-wildcard key, and the flag is direction, method type, identifier and product code joined by the separator |
| ChainingKeys.RouteKeysCrossProduct | things-engine/src/main/java/cn/huangdayu/things/engine/core/executor/ThingsChainingExecutor.java:167-170 | a key is derived exactly when its identifier is M+S+id or M+S+W and its product code is P or W; every derived identifier starts with M+S |
| ChainingKeys.RouteKeysCount | things-engine/src/main/java/cn/huangdayu/things/engine/core/executor/ThingsChainingExecutor.java:163-170 | there are 4 keys; an identifier equal to the wildcard halves that, and so does a product code equal to the wildcard |
| ChainingKeys.DirectionsNeverShareFlag | things-engine/src/main/java/cn/huangdayu/things/engine/core/executor/ThingsChainingExecutor.java:171 | an INPUTTING flag never equals an OUTPUTTING flag, whatever the other fields |
| ChainingKeys.SameRouteSameKeys | things-engine/src/main/java/cn/huangdayu/things/engine/core/executor/ThingsChainingExecutor.java:165-171 | two messages that agree on method type, identifier and product code get the same keys and the same flag, even when their method names differ |
| ChainingKeys.FlagIgnoresFieldBoundaries | things-engine/src/main/java/cn/huangdayu/things/engine/core/executor/ThingsChainingExecutor.java:171 | moving a separator-delimited part from the identifier to the product code leaves the flag unchanged, so two different routes can share one cache entry |
| Chains.Lookup | things-engine/src/main/java/cn/huangdayu/things/engine/core/executor/ThingsChainingExecutor.java:154 | a cell read as non-empty is present in the table, so an absent cell reads as empty |
| Chains.AddAll | things-engine/src/main/java/cn/huangdayu/things/engine/core/executor/ThingsChainingExecutor.java:156 | addAll keeps the linked set as a prefix and adds exactly the new values; on a duplicate-free set the result is the first occurrences of the set followed by the values, so new values are appended in their own order |
| Chains.AddAllAppend | things-engine/src/main/java/cn/huangdayu/things/engine/core/executor/ThingsChainingExecutor.java:153-157 | adding two batches in turn is the same as adding their concatenation |
| Chains.AddAllOne | things-engine/src/main/java/cn/huangdayu/things/engine/core/executor/ThingsChainingExecutor.java:156 | one value is appended exactly when it is not present yet |
| Chains.UnionOf | things-engine/src/main/java/cn/huangdayu/things/engine/core/executor/ThingsChainingExecutor.java:152-158 | the linked set has no duplicates, holds exactly the entries of the visited cells, and equals those cells concatenated in visiting order with each entry kept where it is first seen |
| Chains.FirstOccurrencesPrecedes | things-engine/src/main/java/cn/huangdayu/things/engine/core/executor/ThingsChainingExecutor.java:152-158 | an entry seen before the first sighting of another comes before it in the first occurrences, and so in the linked set |
| Chains.Keep | things-engine/src/main/java/cn/huangdayu/things/engine/core/executor/ThingsChainingExecutor.java:159 | the stream filter keeps exactly the entries that satisfy the predicate and adds no duplicates |
| Chains.KeepAppend | things-engine/src/main/java/cn/huangdayu/things/engine/core/executor/ThingsChainingExecutor.java:159 | filtering a concatenation is filtering each part and concatenating the results |
| Chains.KeepOne | things-engine/src/main/java/cn/huangdayu/things/engine/core/executor/ThingsChainingExecutor.java:159 | one entry is kept exactly when it satisfies the predicate |
| Chains.KeepKeepsOrder | things-engine/src/main/java/cn/huangdayu/things/engine/core/executor/ThingsChainingExecutor.java:159 | of two kept entries, one comes before the other after the filter exactly when it did before |
| Chains.SortByOrder | things-engine/src/main/java/cn/huangdayu/things/engine/core/executor/ThingsChainingExecutor.java:159 | the sort returns a permutation of its input (the same multiset) |
| Chains.SortSortsAndKeepsDistinct | things-engine/src/main/java/cn/huangdayu/things/engine/core/executor/ThingsChainingExecutor.java:159 | the sort's result is in ascending order and stays duplicate-free |
| Chains.SortIsStable | things-engine/src/main/java/cn/huangdayu/things/engine/core/executor/ThingsChainingExecutor.java:159 | for every order value, the entries with that value keep their relative positions |
| Chains.Chains | things-engine/src/main/java/cn/huangdayu/things/engine/core/executor/ThingsChainingExecutor.java:151-160 | getChains returns each entry of the visited cells that passes the filter exactly once, in ascending order |
| Chains.ChainsSpec | things-engine/src/main/java/cn/huangdayu/things/engine/core/executor/ThingsChainingExecutor.java:151-160 | getChains returns each entry found under a visited key and accepted by the predicate exactly once, sorted ascending, with equal orders in linked-union order |
| Chains.TiesFollowFirstSeen | things-engine/src/main/java/cn/huangdayu/things/engine/core/executor/ThingsChainingExecutor.java:152-159 | two accepted entries of equal order come out in the order the linked union first saw them: from an earlier cell, or earlier in the same cell |
| Chains.ChainsIndependentOfKeyOrder | things-engine/src/main/java/cn/huangdayu/things/engine/core/executor/ThingsChainingExecutor.java:153-159 | two enumerations of the same keys give the same entries, and the very same chain when no two orders tie |
| Chains.TiesFollowKeyOrder | things-engine/src/main/java/cn/huangdayu/things/engine/core/executor/ThingsChainingExecutor.java:153-159 | two entries of equal order under two keys come out in the keys' enumeration order, so reversing the enumeration swaps them |
| Chains.GetChains | things-engine/src/main/java/cn/huangdayu/things/engine/core/executor/ThingsChainingExecutor.java:151-160 | the loop over the keys returns the specified chain: duplicate-free, sorted, holding exactly the accepted entries of the visited cells |
| Resolution.GetFilters | things-engine/src/main/java/cn/huangdayu/things/engine/core/executor/ThingsChainingExecutor.java:147-149 | filter returns the filters of the message's direction found under the visited keys, each once, in ascending order |
| Resolution.GetInterceptors | things-engine/src/main/java/cn/huangdayu/things/engine/core/executor/ThingsChainingExecutor.java:143-145 | getInterceptors returns the interceptors of the message's direction found under the visited keys, each once, in ascending order |
| Resolution.GetHandlers | things-engine/src/main/java/cn/huangdayu/things/engine/core/executor/ThingsChainingExecutor.java:138-141 | getHandlers returns the handlers of the message's direction found under the visited keys that answer canHandle true, each once, in ascending order |
| Resolution.ResolvedValues | things-engine/src/main/java/cn/huangdayu/things/engine/core/executor/ThingsChainingExecutor.java:99-104 | all three chains of the supplier's bundle are duplicate-free and in ascending order |
| Resolution.ResolvedValuesSpec | things-engine/src/main/java/cn/huangdayu/things/engine/core/executor/ThingsChainingExecutor.java:138-149 | filters and interceptors are exactly the registered entries of the message's direction; handlers are those that also can handle the request; each chain is duplicate-free and sorted by order |
| Resolution.HandlersDependOnCanHandle | things-engine/src/main/java/cn/huangdayu/things/engine/core/executor/ThingsChainingExecutor.java:138-141 | two canHandle answers give the same handler chain exactly when they agree on every registered handler of the direction |
| Resolution.WildcardProductFallback | things-engine/src/main/java/cn/huangdayu/things/engine/core/executor/ThingsChainingExecutor.java:167 | a handler registered for the exact identifier and the wildcard product is resolved whatever the message's product code |
| Resolution.SpecificityIsUnion | things-engine/src/main/java/cn/huangdayu/things/engine/core/executor/ThingsChainingExecutor.java:152-158 | handlers under (exact, product) and under (exact, wildcard) are both resolved; specificity selects, it does not override |
| Resolution.OrderDecidesExecution | things-engine/src/main/java/cn/huangdayu/things/engine/core/executor/ThingsChainingExecutor.java:138-159 | h1 under (X, product) with order 10 and h2 under (X, wildcard) with order 5 give the handler chain [h2, h1] |
| Resolution.Resolve | things-engine/src/main/java/cn/huangdayu/things/engine/core/executor/ThingsChainingExecutor.java:99-104 | the supplier's three getChains calls build the specified bundle |
| LruCache.LruCache.Get | things-engine/src/main/java/cn/huangdayu/things/engine/core/executor/ThingsChainingExecutor.java:99 | a lookup returns the stored value when the key is present and nothing otherwise |
| LruCache.LruCache.Put | things-engine/src/main/java/cn/huangdayu/things/engine/core/executor/ThingsChainingExecutor.java:52 | storing keeps the size within capacity and stores the value. Every other entry stays as it was, and exactly one other entry is evicted only when a new key arrives in a full cache |
| LruCache.LruCache.constructor | things-engine/src/main/java/cn/huangdayu/things/engine/core/executor/ThingsChainingExecutor.java:52 | a new cache is empty and has the given positive capacity |
| Pipeline.RunEach | things-engine/src/main/java/cn/huangdayu/things/engine/core/executor/ThingsChainingExecutor.java:124-135 | a hook loop calls a prefix of the chain in order: all of it when every call returns, and otherwise up to and including the first call that throws, whose Throwable it reports |
| Pipeline.PreHandles | things-engine/src/main/java/cn/huangdayu/things/engine/core/executor/ThingsChainingExecutor.java:107-115 | pre-handle calls a prefix of the interceptors: all of them when each answers true, and otherwise up to and including the first that answers false or throws |
| Pipeline.TryBlock | things-engine/src/main/java/cn/huangdayu/things/engine/core/executor/ThingsChainingExecutor.java:79-87 | when every preHandle answers true and nothing throws, the try block calls every preHandle, then every handler, then every postHandle, in chain order |
| Pipeline.Pipeline | things-engine/src/main/java/cn/huangdayu/things/engine/core/executor/ThingsChainingExecutor.java:70-94 | a dispatch completes normally only when a handler was resolved, and with handlers and filters the filter chain runs before any hook |
| Pipeline.InterceptorPreHandle | things-engine/src/main/java/cn/huangdayu/things/engine/core/executor/ThingsChainingExecutor.java:107-115 | the loop makes the specified calls and returns the specified answer |
| Pipeline.InvokeEach | things-engine/src/main/java/cn/huangdayu/things/engine/core/executor/ThingsChainingExecutor.java:124-135 | the post-handle, after-completion and handler loop makes the specified calls and reports the specified Throwable |
| Pipeline.RunTryBlock | things-engine/src/main/java/cn/huangdayu/things/engine/core/executor/ThingsChainingExecutor.java:79-87 | the try block runs pre-handle, then (on true) the handlers, then post-handle, as specified |
| Pipeline.Dispatch | things-engine/src/main/java/cn/huangdayu/things/engine/core/executor/ThingsChainingExecutor.java:70-94 | doChain after resolution produces the specified trace and outcome |
| Pipeline.NoHandlerFails | things-engine/src/main/java/cn/huangdayu/things/engine/core/executor/ThingsChainingExecutor.java:70-73 | no hook runs exactly when no handler was resolved, and the dispatch then fails with SERVICE_UNAVAILABLE carrying the message |
| Pipeline.FilterThrowSkipsCompletion | things-engine/src/main/java/cn/huangdayu/things/engine/core/executor/ThingsChainingExecutor.java:77 | a throwing filter chain ends the dispatch with that Throwable, and no interceptor, handler or afterCompletion runs |
| Pipeline.FilterShortCircuitIgnored | things-engine/src/main/java/cn/huangdayu/things/engine/core/executor/ThingsChainingExecutor.java:117-122 | a filter chain that stops early and one that runs to the end lead to identical dispatches |
| Pipeline.SuccessfulDispatch | things-engine/src/main/java/cn/huangdayu/things/engine/core/executor/ThingsChainingExecutor.java:77-94 | with no throw and every preHandle true, the calls are all preHandle, all handlers, all postHandle, then all afterCompletion with null, and the dispatch returns |
| Pipeline.PreHandleRejected | things-engine/src/main/java/cn/huangdayu/things/engine/core/executor/ThingsChainingExecutor.java:81-83 | when the k-th preHandle answers false, the calls are preHandle up to k, then every afterCompletion with null, and the dispatch returns normally |
| Pipeline.HandlerThrows | things-engine/src/main/java/cn/huangdayu/things/engine/core/executor/ThingsChainingExecutor.java:85-94 | a throw from the k-th handler stops the handlers and skips postHandle; every afterCompletion receives the throw (null for an Error) and the throw propagates |
| Pipeline.PreHandleThrows | things-engine/src/main/java/cn/huangdayu/things/engine/core/executor/ThingsChainingExecutor.java:81-94 | a throw from the k-th preHandle skips the rest of the try block; afterCompletion receives it (null for an Error) and it propagates |
| Pipeline.PostHandleThrows | things-engine/src/main/java/cn/huangdayu/things/engine/core/executor/ThingsChainingExecutor.java:87-94 | a throw from the k-th postHandle stops post-handle; afterCompletion receives it (null for an Error) and it propagates |
| Pipeline.CompletionGuaranteed | things-engine/src/main/java/cn/huangdayu/things/engine/core/executor/ThingsChainingExecutor.java:88-94 | once the filter stage returns and no afterCompletion throws, the trace ends with exactly one afterCompletion per interceptor, in chain order, each receiving the captured Exception, and none comes before them |
| Pipeline.CompletionThrowWins | things-engine/src/main/java/cn/huangdayu/things/engine/core/executor/ThingsChainingExecutor.java:91-94 | a throwing afterCompletion stops the later ones, and its Throwable replaces any pending one |
| ChainingExecutor.Served | things-engine/src/main/java/cn/huangdayu/things/engine/core/executor/ThingsChainingExecutor.java:99-104 | the bundle a dispatch runs is well ordered whenever every cached bundle is |
| ChainingExecutor.Dispatched | things-engine/src/main/java/cn/huangdayu/things/engine/core/executor/ThingsChainingExecutor.java:67-95 | a hook runs only when the method name parses and the served bundle has a handler |
| ChainingExecutor.ThingsChainingExecutor.constructor | things-engine/src/main/java/cn/huangdayu/things/engine/core/executor/ThingsChainingExecutor.java:52 | the executor starts with an empty cache of capacity 1000 |
| ChainingExecutor.ThingsChainingExecutor.GetChainingValues | things-engine/src/main/java/cn/huangdayu/things/engine/core/executor/ThingsChainingExecutor.java:97-105 | getKeys failing leaves the cache alone. A hit returns the stored bundle and leaves the cache unchanged. A miss returns the fresh resolution and stores it under the flag; every other entry stays, and at most one is evicted when the cache is full. Every entry stays the resolution of the dispatch that stored it, and the size stays within 1000 |
| ChainingExecutor.ThingsChainingExecutor.ComputeAndStore | things-engine/src/main/java/cn/huangdayu/things/engine/core/executor/ThingsChainingExecutor.java:99-104 | on a miss the supplier's bundle is the fresh resolution of the route. It is stored under the flag, every other entry stays, and one other entry is evicted only when the cache is full |
| ChainingExecutor.ThingsChainingExecutor.DoChain | things-engine/src/main/java/cn/huangdayu/things/engine/core/executor/ThingsChainingExecutor.java:67-95 | doChain fails with getKeys' error and leaves the cache unchanged, or runs the pipeline over the served bundle. A hit leaves the cache unchanged. A miss stores the fresh resolution under the flag, keeping every other entry apart from at most one eviction |
| ChainingExecutor.ThingsChainingExecutor.Input | things-engine/src/main/java/cn/huangdayu/things/engine/core/executor/ThingsChainingExecutor.java:55-57 | input is doChain with INPUTTING: the same run and the same cache update |
| ChainingExecutor.ThingsChainingExecutor.Output | things-engine/src/main/java/cn/huangdayu/things/engine/core/executor/ThingsChainingExecutor.java:60-62 | output is doChain with OUTPUTTING: the same run and the same cache update |
| ChainingExecutor.LookupThenHit | things-engine/src/main/java/cn/huangdayu/things/engine/core/executor/ThingsChainingExecutor.java:99-104 | after one lookup the route is in the cache, and a later request on it is served the bundle that lookup served, whatever its own canHandle answers |
| ChainingExecutor.UnparsableNameFails | things-engine/src/main/java/cn/huangdayu/things/engine/core/executor/ThingsChainingExecutor.java:68 | a method name whose type cannot be extracted fails with the index error before any hook runs |
| ChainingExecutor.InputOutputSeparate | things-engine/src/main/java/cn/huangdayu/things/engine/core/executor/ThingsChainingExecutor.java:55-62 | an inbound and an outbound message never use the same cache entry |
| ChainingExecutor.CachedHandlersAgreeWithFresh | things-engine/src/main/java/cn/huangdayu/things/engine/core/executor/ThingsChainingExecutor.java:99-102 | a hit serves the handler chain of the request that stored it, and that chain equals the later request's own resolution exactly when both requests' canHandle answers agree on the registered handlers |
| ChainingExecutor.NoResolvedHandlerFails | things-engine/src/main/java/cn/huangdayu/things/engine/core/executor/ThingsChainingExecutor.java:70-73 | a miss on a route where no registered handler applies fails with SERVICE_UNAVAILABLE and runs no hook |

## Left out

- The 10-minute expiry of cache entries: it depends on the wall clock.
- LruCache.LruCache.Put: the victim of an eviction is left unspecified. It is not Hutool's least-recently-used choice, whose bookkeeping is library-internal.
- LruCache.LruCache.Get: does not record the access that the LRU policy uses to choose victims.
- Thread safety of the static cache, and concurrent misses on the same key: the model is sequential.
- The cache is a field of the executor object rather than a static field shared by every instance.
- `log.error` on pre-handle rejection: logging has no effect on the dispatch.
- `ThingsFiltering.Chain`, `ThingsMethodType.getMethodType` and `ThingsUtils.subIdentifies` are not part of this model. They enter as parameters: a filter-chain function, and a method-type and identifier function.
- Pipeline.Dispatch: plugin hooks are functions of the plugin alone. State that one hook changes in the request or response, and that a later hook sees, is not modelled.
- ChainingExecutor.ThingsChainingExecutor.GetChainingValues: a handler's `canHandle` answers for the current request and response are a parameter. They are not computed from the request.
- ChainingExecutor.ThingsChainingExecutor.GetChainingValues: `canHandle` always answers. A `canHandle` that throws inside the cache supplier is not modelled: in the source nothing is then stored, and the throw leaves `doChain` before any hook runs.
- Chains.Keep: its own contract states membership only. The encounter order the filter keeps is stated by Chains.KeepAppend and Chains.KeepKeepsOrder.
- The trace code a `ThingsException` draws from a UUID: the failure value carries the message, the error code and the text only.
- Null handling: a null message, method name, metadata or product code, and null sets from the table, are not modelled. The table gives an empty cell for a missing key.
