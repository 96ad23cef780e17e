/** ThingsChainingExecutor: input and output dispatch a message through the
    chains resolved for its route, looked up in (or added to) the resolution
    cache under the route's keyFlag. */
module ChainingExecutor {
  import opened ThingsTypes
  import opened ChainingKeys
  import opened Resolution
  import opened Pipeline
  import opened LruCache

  /** The dispatch whose cache miss stored an entry: its derived keys, its
      direction and its handlers' canHandle answers. */
  datatype Origin = Origin(keys: set<ChainingKey>, dir: StreamingType, canHandle: Registration -> bool)

  /** The chains a dispatch runs: the cached bundle on a hit, a fresh
      resolution on a miss. */
  function Served(tables: Tables, env: Collaborators, entries: map<string, ChainingValues>,
                  ks: ChainingKeys, dir: StreamingType, canHandle: Registration -> bool): (r: ChainingValues)
    ensures (forall flag :: flag in entries ==> WellFormed(entries[flag])) ==> WellFormed(r)
  {
    if ks.keyFlag in entries then entries[ks.keyFlag]
    else ResolvedValues(tables, env.enumerate(ks.keys), dir, canHandle)
  }

  /** What doChain does for a message, given the cache contents before it:
      getKeys fails first, or the served chains go through the pipeline. */
  function Dispatched(tables: Tables, env: Collaborators, entries: map<string, ChainingValues>,
                      jtm: Message, dir: StreamingType, canHandle: Registration -> bool,
                      chain: FilterChain, p: Plugins): (r: Run)
    ensures r.trace != [] ==>
      GetKeys(jtm, dir, env).Ok? && Served(tables, env, entries, GetKeys(jtm, dir, env).value, dir, canHandle).handlers != []
  {
    match GetKeys(jtm, dir, env)
    case Err(e) => Run([], Raised(e))
    case Ok(ks) => Pipeline.Pipeline(chain, p, jtm, Served(tables, env, entries, ks, dir, canHandle))
  }

  /** The cache after getChainingValues looked up `jtm`'s route: unchanged
      when getKeys fails or the flag is present; otherwise the fresh
      resolution is stored under the flag, every other entry stays, and at
      most one is evicted. */
  ghost predicate LookedUp(tables: Tables, env: Collaborators, before: map<string, ChainingValues>,
                           after: map<string, ChainingValues>, jtm: Message, dir: StreamingType,
                           canHandle: Registration -> bool) {
    match GetKeys(jtm, dir, env)
    case Err(_) => after == before
    case Ok(ks) =>
      if ks.keyFlag in before then after == before
      else Stored(before, after, ks.keyFlag, ResolvedValues(tables, env.enumerate(ks.keys), dir, canHandle), CACHE_CAPACITY)
  }

  /** A cache entry is the resolution of the dispatch that stored it. */
  predicate Coherent(tables: Tables, env: Collaborators, o: Origin, v: ChainingValues) {
    v == ResolvedValues(tables, env.enumerate(o.keys), o.dir, o.canHandle)
  }

  /** Every cache entry has a recorded origin and is its resolution. */
  predicate AllCoherent(tables: Tables, env: Collaborators, entries: map<string, ChainingValues>,
                        origin: map<string, Origin>) {
    forall flag :: flag in entries ==> flag in origin && Coherent(tables, env, origin[flag], entries[flag])
  }

  /** Storing a resolution (with one eviction at most) keeps every entry
      coherent with its origin. */
  lemma StoreKeepsCoherent(tables: Tables, env: Collaborators, before: map<string, ChainingValues>,
                           after: map<string, ChainingValues>, origin: map<string, Origin>,
                           flag: string, o: Origin)
    requires AllCoherent(tables, env, before, origin)
    requires flag in after && Coherent(tables, env, o, after[flag])
    requires forall k :: k in after && k != flag ==> k in before && after[k] == before[k]
    ensures AllCoherent(tables, env, after, origin[flag := o])
  {
  }

  class ThingsChainingExecutor {
    /** THINGS_FILTERS_TABLE, THINGS_HANDLERS_TABLE, THINGS_INTERCEPTORS_TABLE. */
    const tables: Tables
    const env: Collaborators
    const cache: LruCache<ChainingValues>
    ghost var origin: map<string, Origin>

    ghost predicate Valid()
      reads this, cache
    {
      && cache.Valid()
      && cache.capacity == CACHE_CAPACITY
      && AllCoherent(tables, env, cache.entries, origin)
    }

    constructor (tables: Tables, env: Collaborators)
      ensures Valid() && fresh(cache)
      ensures this.tables == tables && this.env == env && cache.entries == map[]
    {
      this.tables := tables;
      this.env := env;
      cache := new LruCache<ChainingValues>(CACHE_CAPACITY);
      origin := map[];
    }

    /** getChainingValues: getKeys, then get-or-compute on the cache. A hit
        returns the stored bundle and leaves the cache as it was; a miss
        resolves the three chains once, stores them under keyFlag and
        returns them. */
    method GetChainingValues(jtm: Message, dir: StreamingType, canHandle: Registration -> bool)
      returns (r: Result<ChainingValues, Failure>, hit: bool)
      requires Valid()
      modifies this, cache
      ensures Valid() && |cache.entries| <= CACHE_CAPACITY
      ensures GetKeys(jtm, dir, env).Err? ==>
        r == Err(GetKeys(jtm, dir, env).error) && !hit && cache.entries == old(cache.entries)
      ensures GetKeys(jtm, dir, env).Ok? ==>
        var ks := GetKeys(jtm, dir, env).value;
        && r == Ok(Served(tables, env, old(cache.entries), ks, dir, canHandle))
        && (hit <==> ks.keyFlag in old(cache.entries))
        && (hit ==> cache.entries == old(cache.entries))
        && ks.keyFlag in cache.entries && cache.entries[ks.keyFlag] == r.value
      ensures LookedUp(tables, env, old(cache.entries), cache.entries, jtm, dir, canHandle)
    {
      var keys := GetKeys(jtm, dir, env);
      if keys.Err? {
        return Err(keys.error), false;
      }
      var ks := keys.value;
      var cached := cache.Get(ks.keyFlag);
      if cached.Some? {
        return Ok(cached.value), true;
      }
      var values := ComputeAndStore(ks, dir, canHandle);
      r, hit := Ok(values), false;
    }

    /** The supplier getChainingValues hands to the cache, and the cache
        storing what it returns. */
    method ComputeAndStore(ks: ChainingKeys, dir: StreamingType, canHandle: Registration -> bool)
      returns (values: ChainingValues)
      requires Valid()
      modifies this, cache
      ensures Valid()
      ensures values == ResolvedValues(tables, env.enumerate(ks.keys), dir, canHandle)
      ensures Stored(old(cache.entries), cache.entries, ks.keyFlag, values, CACHE_CAPACITY)
    {
      values := Resolve(tables, env.enumerate(ks.keys), dir, canHandle);
      ghost var before := cache.entries;
      cache.Put(ks.keyFlag, values);
      StoreKeepsCoherent(tables, env, before, cache.entries, origin, ks.keyFlag, Origin(ks.keys, dir, canHandle));
      origin := origin[ks.keyFlag := Origin(ks.keys, dir, canHandle)];
    }

    /** doChain: resolve (through the cache), then run the pipeline. */
    method DoChain(jtm: Message, dir: StreamingType, canHandle: Registration -> bool,
                   chain: FilterChain, p: Plugins) returns (run: Run)
      requires Valid()
      modifies this, cache
      ensures Valid()
      ensures run == Dispatched(tables, env, old(cache.entries), jtm, dir, canHandle, chain, p)
      ensures LookedUp(tables, env, old(cache.entries), cache.entries, jtm, dir, canHandle)
    {
      var values, _ := GetChainingValues(jtm, dir, canHandle);
      if values.Err? {
        return Run([], Raised(values.error));
      }
      run := Dispatch(chain, p, jtm, values.value);
    }

    /** input: doChain for an inbound message. */
    method Input(jtm: Message, canHandle: Registration -> bool, chain: FilterChain, p: Plugins)
      returns (run: Run)
      requires Valid()
      modifies this, cache
      ensures Valid()
      ensures run == Dispatched(tables, env, old(cache.entries), jtm, INPUTTING, canHandle, chain, p)
      ensures LookedUp(tables, env, old(cache.entries), cache.entries, jtm, INPUTTING, canHandle)
    {
      run := DoChain(jtm, INPUTTING, canHandle, chain, p);
    }

    /** output: doChain for an outbound message. */
    method Output(jtm: Message, canHandle: Registration -> bool, chain: FilterChain, p: Plugins)
      returns (run: Run)
      requires Valid()
      modifies this, cache
      ensures Valid()
      ensures run == Dispatched(tables, env, old(cache.entries), jtm, OUTPUTTING, canHandle, chain, p)
      ensures LookedUp(tables, env, old(cache.entries), cache.entries, jtm, OUTPUTTING, canHandle)
    {
      run := DoChain(jtm, OUTPUTTING, canHandle, chain, p);
    }
  }

  /** get-or-compute: after one lookup of a route, the route is served from
      the cache with the bundle that lookup served, whatever the later
      request's canHandle answers. */
  lemma LookupThenHit(tables: Tables, env: Collaborators, before: map<string, ChainingValues>,
                      after: map<string, ChainingValues>, jtm: Message, dir: StreamingType,
                      first: Registration -> bool, later: Registration -> bool)
    requires LookedUp(tables, env, before, after, jtm, dir, first)
    requires GetKeys(jtm, dir, env).Ok?
    ensures var ks := GetKeys(jtm, dir, env).value;
      && ks.keyFlag in after
      && Served(tables, env, after, ks, dir, later) == Served(tables, env, before, ks, dir, first)
  {
  }

  /** A message whose method name cannot be parsed fails before any lookup:
      no hook runs and the index error propagates. */
  lemma UnparsableNameFails(tables: Tables, env: Collaborators, entries: map<string, ChainingValues>,
                            jtm: Message, dir: StreamingType, canHandle: Registration -> bool,
                            chain: FilterChain, p: Plugins)
    requires MethodTypeOf(jtm, env).None?
    ensures Dispatched(tables, env, entries, jtm, dir, canHandle, chain, p).trace == []
    ensures Dispatched(tables, env, entries, jtm, dir, canHandle, chain, p).outcome.failure.ArrayIndexOutOfBounds?
  {
    GetKeysSpec(jtm, dir, env);
  }

  /** An inbound and an outbound message never read each other's cache
      entry. */
  lemma InputOutputSeparate(env: Collaborators, j1: Message, j2: Message)
    requires GetKeys(j1, INPUTTING, env).Ok? && GetKeys(j2, OUTPUTTING, env).Ok?
    ensures GetKeys(j1, INPUTTING, env).value.keyFlag != GetKeys(j2, OUTPUTTING, env).value.keyFlag
  {
    GetKeysSpec(j1, INPUTTING, env);
    GetKeysSpec(j2, OUTPUTTING, env);
    DirectionsNeverShareFlag(env, MethodTypeOf(j1, env).value, env.subIdentifies(j1.methodName), j1.productCode,
                             MethodTypeOf(j2, env).value, env.subIdentifies(j2.methodName), j2.productCode);
  }

  /** A later dispatch on a cached route runs the handler chain resolved for
      the dispatch that stored it; that chain is the one its own resolution
      would give exactly when both dispatches' canHandle agree on every
      registered handler of the direction. */
  lemma CachedHandlersAgreeWithFresh(tables: Tables, env: Collaborators, entries: map<string, ChainingValues>,
                                     ks: ChainingKeys, dir: StreamingType, first: Registration -> bool,
                                     later: Registration -> bool)
    requires Enumerates(env.enumerate(ks.keys), ks.keys)
    requires ks.keyFlag in entries && Coherent(tables, env, Origin(ks.keys, dir, first), entries[ks.keyFlag])
    ensures Served(tables, env, entries, ks, dir, later).handlers ==
            ResolvedValues(tables, env.enumerate(ks.keys), dir, later).handlers
            <==>
            forall r :: Registered(tables.handlers, ks.keys, r) && r.sourceType == dir ==> first(r) == later(r)
  {
    HandlersDependOnCanHandle(tables, ks.keys, env.enumerate(ks.keys), dir, first, later);
  }

  /** A dispatch that finds no cache entry and resolves no handler fails
      with SERVICE_UNAVAILABLE and runs no hook. */
  lemma NoResolvedHandlerFails(tables: Tables, env: Collaborators, entries: map<string, ChainingValues>,
                               jtm: Message, dir: StreamingType, canHandle: Registration -> bool,
                               chain: FilterChain, p: Plugins)
    requires GetKeys(jtm, dir, env).Ok?
    requires var ks := GetKeys(jtm, dir, env).value;
      && ks.keyFlag !in entries
      && Enumerates(env.enumerate(ks.keys), ks.keys)
      && forall r :: Registered(tables.handlers, ks.keys, r) ==> r.sourceType != dir || !canHandle(r)
    ensures Dispatched(tables, env, entries, jtm, dir, canHandle, chain, p) ==
      Run([], Raised(ThingsException(jtm, SERVICE_UNAVAILABLE, NO_HANDLER_MESSAGE)))
  {
    var ks := GetKeys(jtm, dir, env).value;
    ResolvedValuesSpec(tables, ks.keys, env.enumerate(ks.keys), dir, canHandle);
    var hs := ResolvedValues(tables, env.enumerate(ks.keys), dir, canHandle).handlers;
    assert hs == [];
  }
}
