/** The three resolvers (filter, getInterceptors, getHandlers) and the bundle
    getChainingValues builds from them on a cache miss. */
module Resolution {
  import opened ThingsTypes
  import opened ChainingKeys
  import opened Chains

  /** A registered filter, handler or interceptor (ThingsFilters, ThingsHandlers,
      ThingsInterceptors): its identity, the direction its annotation declares
      and the order its annotation gives. */
  datatype Registration = Registration(name: string, sourceType: StreamingType, order: int)

  /** THINGS_FILTERS_TABLE, THINGS_HANDLERS_TABLE and THINGS_INTERCEPTORS_TABLE. */
  datatype Tables = Tables(
    filters: Table<Registration>,
    handlers: Table<Registration>,
    interceptors: Table<Registration>)

  /** ChainingValues: the resolved chains of one route. */
  datatype ChainingValues = ChainingValues(
    filters: seq<Registration>,
    handlers: seq<Registration>,
    interceptors: seq<Registration>)

  function OrderOf(r: Registration): int {
    r.order
  }

  /** The filter predicate of filter and getInterceptors. */
  function DirectionIs(dir: StreamingType): Registration -> bool {
    (r: Registration) => r.sourceType == dir
  }

  /** The filter predicate of getHandlers; `canHandle` is the handler's answer
      for the request and response of the dispatch that resolves. */
  function Applicable(dir: StreamingType, canHandle: Registration -> bool): Registration -> bool {
    (r: Registration) => r.sourceType == dir && canHandle(r)
  }

  /** filter: the filters of the direction found under the visited keys. */
  function GetFilters(tables: Tables, keyOrder: seq<ChainingKey>, dir: StreamingType): (r: seq<Registration>)
    ensures WellOrdered(r)
    ensures forall x :: x in r <==> InSomeCell(tables.filters, keyOrder, x) && x.sourceType == dir
  {
    Chains.Chains(tables.filters, keyOrder, DirectionIs(dir), OrderOf)
  }

  /** getInterceptors: the interceptors of the direction found under the
      visited keys. */
  function GetInterceptors(tables: Tables, keyOrder: seq<ChainingKey>, dir: StreamingType): (r: seq<Registration>)
    ensures WellOrdered(r)
    ensures forall x :: x in r <==> InSomeCell(tables.interceptors, keyOrder, x) && x.sourceType == dir
  {
    Chains.Chains(tables.interceptors, keyOrder, DirectionIs(dir), OrderOf)
  }

  /** getHandlers: the handlers of the direction found under the visited
      keys that can handle the request. */
  function GetHandlers(tables: Tables, keyOrder: seq<ChainingKey>, dir: StreamingType,
                       canHandle: Registration -> bool): (r: seq<Registration>)
    ensures WellOrdered(r)
    ensures forall x :: x in r <==> InSomeCell(tables.handlers, keyOrder, x) && x.sourceType == dir && canHandle(x)
  {
    Chains.Chains(tables.handlers, keyOrder, Applicable(dir, canHandle), OrderOf)
  }

  /** The bundle the cache supplier builds. */
  function ResolvedValues(tables: Tables, keyOrder: seq<ChainingKey>, dir: StreamingType,
                          canHandle: Registration -> bool): (r: ChainingValues)
    ensures WellFormed(r)
  {
    ChainingValues(GetFilters(tables, keyOrder, dir),
                   GetHandlers(tables, keyOrder, dir, canHandle),
                   GetInterceptors(tables, keyOrder, dir))
  }

  /** `r` is registered in `table` under one of `keys`. */
  predicate Registered(table: Table<Registration>, keys: set<ChainingKey>, r: Registration) {
    exists k :: k in keys && r in Lookup(table, k)
  }

  /** `keyOrder` lists exactly the keys of `keys`. */
  predicate Enumerates(keyOrder: seq<ChainingKey>, keys: set<ChainingKey>) {
    (forall k :: k in keyOrder ==> k in keys) && (forall k :: k in keys ==> k in keyOrder)
  }

  /** A chain holds each entry once, in ascending order. */
  predicate WellOrdered(chain: seq<Registration>) {
    NoDuplicates(chain) && Sorted(chain, OrderOf)
  }

  /** All three chains of a bundle are well ordered. */
  predicate WellFormed(v: ChainingValues) {
    WellOrdered(v.filters) && WellOrdered(v.handlers) && WellOrdered(v.interceptors)
  }

  /** Visiting the keys of an enumeration reaches exactly the registrations
      under those keys. */
  lemma CellsOfEnumeration(table: Table<Registration>, keys: set<ChainingKey>, keyOrder: seq<ChainingKey>, r: Registration)
    requires Enumerates(keyOrder, keys)
    ensures InSomeCell(table, keyOrder, r) <==> Registered(table, keys, r)
  {
    if InSomeCell(table, keyOrder, r) {
      var k :| k in keyOrder && r in Lookup(table, k);
      assert k in keys;
    }
    if Registered(table, keys, r) {
      var k :| k in keys && r in Lookup(table, k);
      assert k in keyOrder;
    }
  }

  /** What the three resolvers return: the registrations found under the
      derived keys whose direction matches (and, for handlers, that can handle
      the request), each once, in ascending order. */
  lemma ResolvedValuesSpec(tables: Tables, keys: set<ChainingKey>, keyOrder: seq<ChainingKey>,
                           dir: StreamingType, canHandle: Registration -> bool)
    requires Enumerates(keyOrder, keys)
    ensures var v := ResolvedValues(tables, keyOrder, dir, canHandle);
      && WellOrdered(v.filters) && WellOrdered(v.handlers) && WellOrdered(v.interceptors)
      && (forall r :: r in v.filters <==> Registered(tables.filters, keys, r) && r.sourceType == dir)
      && (forall r :: r in v.interceptors <==> Registered(tables.interceptors, keys, r) && r.sourceType == dir)
      && (forall r :: r in v.handlers <==>
            Registered(tables.handlers, keys, r) && r.sourceType == dir && canHandle(r))
  {
    ChainsSpec(tables.filters, keyOrder, DirectionIs(dir), OrderOf);
    ChainsSpec(tables.interceptors, keyOrder, DirectionIs(dir), OrderOf);
    ChainsSpec(tables.handlers, keyOrder, Applicable(dir, canHandle), OrderOf);
    forall r
      ensures (InSomeCell(tables.filters, keyOrder, r) <==> Registered(tables.filters, keys, r))
           && (InSomeCell(tables.interceptors, keyOrder, r) <==> Registered(tables.interceptors, keys, r))
           && (InSomeCell(tables.handlers, keyOrder, r) <==> Registered(tables.handlers, keys, r))
    {
      CellsOfEnumeration(tables.filters, keys, keyOrder, r);
      CellsOfEnumeration(tables.interceptors, keys, keyOrder, r);
      CellsOfEnumeration(tables.handlers, keys, keyOrder, r);
    }
  }

  /** Filters agreeing on every element select the same subsequence. */
  lemma {:induction false} KeepAgrees(s: seq<Registration>, p1: Registration -> bool, p2: Registration -> bool)
    requires forall x :: x in s ==> p1(x) == p2(x)
    ensures Keep(s, p1) == Keep(s, p2)
  {
    if s != [] {
      assert forall x :: x in s[1..] ==> x in s;
      KeepAgrees(s[1..], p1, p2);
    }
  }

  /** The resolved handler chain is the same for two canHandle answers exactly
      when they agree on every registered handler of the right direction; a
      cached chain therefore stands for later requests only as far as their
      handlers answer as the first request's did. */
  lemma HandlersDependOnCanHandle(tables: Tables, keys: set<ChainingKey>, keyOrder: seq<ChainingKey>,
                                  dir: StreamingType, c1: Registration -> bool, c2: Registration -> bool)
    requires Enumerates(keyOrder, keys)
    ensures GetHandlers(tables, keyOrder, dir, c1) == GetHandlers(tables, keyOrder, dir, c2) <==>
            forall r :: Registered(tables.handlers, keys, r) && r.sourceType == dir ==> c1(r) == c2(r)
  {
    ResolvedValuesSpec(tables, keys, keyOrder, dir, c1);
    ResolvedValuesSpec(tables, keys, keyOrder, dir, c2);
    if forall r :: Registered(tables.handlers, keys, r) && r.sourceType == dir ==> c1(r) == c2(r) {
      var union := UnionOf(tables.handlers, keyOrder);
      forall x | x in union ensures Applicable(dir, c1)(x) == Applicable(dir, c2)(x) {
        CellsOfEnumeration(tables.handlers, keys, keyOrder, x);
      }
      KeepAgrees(union, Applicable(dir, c1), Applicable(dir, c2));
    }
  }

  /** A handler registered under (methodType + separator + identifier,
      wildcard) is resolved for a request on that identifier whatever its
      product code. */
  lemma WildcardProductFallback(tables: Tables, env: Collaborators, jtm: Message, dir: StreamingType,
                                canHandle: Registration -> bool, h: Registration)
    requires GetKeys(jtm, dir, env).Ok?
    requires Enumerates(env.enumerate(GetKeys(jtm, dir, env).value.keys), GetKeys(jtm, dir, env).value.keys)
    requires h in Lookup(tables.handlers, ChainingKey(
               MethodTypeOf(jtm, env).value + env.separator + env.subIdentifies(jtm.methodName), env.wildcard))
    requires h.sourceType == dir && canHandle(h)
    ensures h in GetHandlers(tables, env.enumerate(GetKeys(jtm, dir, env).value.keys), dir, canHandle)
  {
    var ks := GetKeys(jtm, dir, env).value.keys;
    var m := MethodTypeOf(jtm, env).value;
    var k := ChainingKey(m + env.separator + env.subIdentifies(jtm.methodName), env.wildcard);
    RouteKeysCrossProduct(env, m, env.subIdentifies(jtm.methodName), jtm.productCode, k);
    assert Registered(tables.handlers, ks, h);
    ResolvedValuesSpec(tables, ks, env.enumerate(ks), dir, canHandle);
  }

  /** Specificity selects, it does not override: handlers registered under
      (identifier, wildcard) and (identifier, product code) are both resolved. */
  lemma SpecificityIsUnion(tables: Tables, env: Collaborators, jtm: Message, dir: StreamingType,
                           canHandle: Registration -> bool, h1: Registration, h2: Registration)
    requires GetKeys(jtm, dir, env).Ok?
    requires Enumerates(env.enumerate(GetKeys(jtm, dir, env).value.keys), GetKeys(jtm, dir, env).value.keys)
    requires var exact := MethodTypeOf(jtm, env).value + env.separator + env.subIdentifies(jtm.methodName);
      && h1 in Lookup(tables.handlers, ChainingKey(exact, jtm.productCode))
      && h2 in Lookup(tables.handlers, ChainingKey(exact, env.wildcard))
    requires h1.sourceType == dir && canHandle(h1) && h2.sourceType == dir && canHandle(h2)
    ensures var chain := GetHandlers(tables, env.enumerate(GetKeys(jtm, dir, env).value.keys), dir, canHandle);
      h1 in chain && h2 in chain
  {
    var ks := GetKeys(jtm, dir, env).value.keys;
    var m := MethodTypeOf(jtm, env).value;
    var id := env.subIdentifies(jtm.methodName);
    var exact := m + env.separator + id;
    RouteKeysCrossProduct(env, m, id, jtm.productCode, ChainingKey(exact, jtm.productCode));
    RouteKeysCrossProduct(env, m, id, jtm.productCode, ChainingKey(exact, env.wildcard));
    assert Registered(tables.handlers, ks, h1);
    assert Registered(tables.handlers, ks, h2);
    ResolvedValuesSpec(tables, ks, env.enumerate(ks), dir, canHandle);
  }

  /** The routing table of the scenario below: h1 under (exact, product code)
      and h2 under (exact, wildcard). */
  function ScenarioTable(env: Collaborators, exact: string, p: string, h1: Registration, h2: Registration): Table<Registration> {
    map[exact := map[p := [h1], env.wildcard := [h2]]]
  }

  /** Under the derived keys of a specific route, the scenario table holds
      exactly h1 and h2. */
  lemma ScenarioRegistered(env: Collaborators, m: string, id: string, p: string,
                           h1: Registration, h2: Registration, r: Registration)
    requires id != env.wildcard && p != env.wildcard
    ensures var table := ScenarioTable(env, m + env.separator + id, p, h1, h2);
      Registered(table, RouteKeys(env, m, id, p), r) <==> r == h1 || r == h2
  {
    var exact := m + env.separator + id;
    var anyId := m + env.separator + env.wildcard;
    var table := ScenarioTable(env, exact, p, h1, h2);
    var ks := RouteKeys(env, m, id, p);
    assert exact != anyId by {
      assert exact == (m + env.separator) + id && anyId == (m + env.separator) + env.wildcard;
      if exact == anyId { AppendCancel(m + env.separator, id, env.wildcard); }
    }
    if Registered(table, ks, r) {
      var k :| k in ks && r in Lookup(table, k);
      RouteKeysCrossProduct(env, m, id, p, k);
    }
    RouteKeysCrossProduct(env, m, id, p, ChainingKey(exact, p));
    RouteKeysCrossProduct(env, m, id, p, ChainingKey(exact, env.wildcard));
    assert h1 in Lookup(table, ChainingKey(exact, p));
    assert h2 in Lookup(table, ChainingKey(exact, env.wildcard));
  }

  /** Two applicable handlers of orders 10 and 5 and nothing else: the one of
      order 5 comes first. */
  lemma TwoHandlersByOrder(table: Table<Registration>, keys: set<ChainingKey>, keyOrder: seq<ChainingKey>,
                           dir: StreamingType, canHandle: Registration -> bool, h1: Registration, h2: Registration)
    requires Enumerates(keyOrder, keys)
    requires forall r :: Registered(table, keys, r) <==> r == h1 || r == h2
    requires h1.order == 10 && h2.order == 5
    requires h1.sourceType == dir && canHandle(h1) && h2.sourceType == dir && canHandle(h2)
    ensures GetHandlers(Tables(map[], table, map[]), keyOrder, dir, canHandle) == [h2, h1]
  {
    var tables := Tables(map[], table, map[]);
    ResolvedValuesSpec(tables, keys, keyOrder, dir, canHandle);
    WellOrderedPair(GetHandlers(tables, keyOrder, dir, canHandle), h1, h2);
  }

  /** A well-ordered chain of exactly two entries of distinct orders. */
  lemma WellOrderedPair(chain: seq<Registration>, h1: Registration, h2: Registration)
    requires WellOrdered(chain)
    requires forall r :: r in chain <==> r == h1 || r == h2
    requires h2.order < h1.order
    ensures chain == [h2, h1]
  {
    assert forall r :: r in chain <==> r in [h2, h1];
    NoTiesCarryOver([h2, h1], chain, OrderOf);
    StrictlySortedUnique(chain, [h2, h1], OrderOf);
  }

  /** Handler h1 registered at (X, product, order 10) and h2 at (X, wildcard,
      order 5), nothing else registered: h2 runs before h1, whatever the key
      enumeration order. */
  lemma OrderDecidesExecution(env: Collaborators, jtm: Message, dir: StreamingType,
                              canHandle: Registration -> bool, h1: Registration, h2: Registration)
    requires GetKeys(jtm, dir, env).Ok?
    requires Enumerates(env.enumerate(GetKeys(jtm, dir, env).value.keys), GetKeys(jtm, dir, env).value.keys)
    requires env.subIdentifies(jtm.methodName) != env.wildcard && jtm.productCode != env.wildcard
    requires h1.order == 10 && h2.order == 5
    requires h1.sourceType == dir && canHandle(h1) && h2.sourceType == dir && canHandle(h2)
    ensures var exact := MethodTypeOf(jtm, env).value + env.separator + env.subIdentifies(jtm.methodName);
      var tables := Tables(map[], ScenarioTable(env, exact, jtm.productCode, h1, h2), map[]);
      GetHandlers(tables, env.enumerate(GetKeys(jtm, dir, env).value.keys), dir, canHandle) == [h2, h1]
  {
    var ks := GetKeys(jtm, dir, env).value.keys;
    var m := MethodTypeOf(jtm, env).value;
    var id := env.subIdentifies(jtm.methodName);
    var table := ScenarioTable(env, m + env.separator + id, jtm.productCode, h1, h2);
    assert ks == RouteKeys(env, m, id, jtm.productCode);
    forall r ensures Registered(table, ks, r) <==> r == h1 || r == h2 {
      ScenarioRegistered(env, m, id, jtm.productCode, h1, h2, r);
    }
    TwoHandlersByOrder(table, ks, env.enumerate(ks), dir, canHandle, h1, h2);
  }

  /** getHandlers, getInterceptors and filter as the cache supplier runs them. */
  method Resolve(tables: Tables, keyOrder: seq<ChainingKey>, dir: StreamingType,
                 canHandle: Registration -> bool) returns (v: ChainingValues)
    ensures v == ResolvedValues(tables, keyOrder, dir, canHandle)
  {
    var filters := GetChains(tables.filters, keyOrder, DirectionIs(dir), OrderOf);
    var interceptors := GetChains(tables.interceptors, keyOrder, DirectionIs(dir), OrderOf);
    var handlers := GetChains(tables.handlers, keyOrder, Applicable(dir, canHandle), OrderOf);
    v := ChainingValues(filters, handlers, interceptors);
  }
}
