/** getKeys: the four (identifier, productCode) routing keys of a message and
    the cache key ("keyFlag") of its route. */
module ChainingKeys {
  import opened ThingsTypes
  import MethodName

  /** ChainingKey: one cell address of the routing table. */
  datatype ChainingKey = ChainingKey(identifier: string, productCode: string)

  /** ChainingKeys: the derived key set and the route's cache key. */
  datatype ChainingKeys = ChainingKeys(keys: set<ChainingKey>, keyFlag: string)

  /** Code the executor calls but that is not part of this model:
      - separator, wildcard: ThingsConstants.THINGS_SEPARATOR and THINGS_WILDCARD;
      - methodType: ThingsMethodType.getMethodType of a token, rendered by name;
      - subIdentifies: ThingsUtils.subIdentifies of the method name;
      - enumerate: the iteration order of a HashSet of keys. */
  datatype Collaborators = Collaborators(
    separator: string,
    wildcard: string,
    methodType: string -> string,
    subIdentifies: string -> string,
    enumerate: set<ChainingKey> -> seq<ChainingKey>)

  /** The four keys for method type `m`, identifier `id` and product code `p`. */
  function RouteKeys(env: Collaborators, m: string, id: string, p: string): (r: set<ChainingKey>)
    ensures forall k :: k in r ==>
      m + env.separator <= k.identifier && (k.productCode == p || k.productCode == env.wildcard)
  {
    var exact := m + env.separator + id;
    var anyId := m + env.separator + env.wildcard;
    assert exact == (m + env.separator) + id && anyId == (m + env.separator) + env.wildcard;
    {ChainingKey(exact, env.wildcard), ChainingKey(exact, p),
     ChainingKey(anyId, p), ChainingKey(anyId, env.wildcard)}
  }

  /** The cache key: direction, method type, identifier and product code
      joined by the separator. */
  function KeyFlag(env: Collaborators, dir: StreamingType, m: string, id: string, p: string): (r: string)
    ensures dir.Name() + env.separator <= r
  {
    var r := dir.Name() + env.separator + m + env.separator + id + env.separator + p;
    assert r == (dir.Name() + env.separator) + (m + env.separator + id + env.separator + p);
    r
  }

  /** getKeys: fails when extractMiddlePart fails. */
  function GetKeys(jtm: Message, dir: StreamingType, env: Collaborators): (r: Result<ChainingKeys, Failure>)
    ensures r.Err? <==> |MethodName.Split(jtm.methodName)| == 1
    ensures r.Err? ==> r.error == ArrayIndexOutOfBounds(1, 1)
    ensures r.Ok? ==> dir.Name() + env.separator <= r.value.keyFlag
  {
    match MethodName.ExtractMiddlePart(jtm.methodName)
    case Err(e) => Err(e)
    case Ok(token) =>
      var m := env.methodType(token);
      var id := env.subIdentifies(jtm.methodName);
      Ok(ChainingKeys(RouteKeys(env, m, id, jtm.productCode), KeyFlag(env, dir, m, id, jtm.productCode)))
  }

  /** The method type a message routes under, when extraction succeeds. */
  function MethodTypeOf(jtm: Message, env: Collaborators): Option<string> {
    match MethodName.ExtractMiddlePart(jtm.methodName)
    case Err(_) => None
    case Ok(token) => Some(env.methodType(token))
  }

  /** Appending to a common prefix is injective. */
  lemma AppendCancel(a: string, b: string, c: string)
    requires a + b == a + c
    ensures b == c
  {
    assert b == (a + b)[|a|..];
    assert c == (a + c)[|a|..];
  }

  /** The derived keys are exactly the cross product of {exact id, wildcard id}
      and {product code, wildcard}, all under the prefix "methodType + separator". */
  lemma RouteKeysCrossProduct(env: Collaborators, m: string, id: string, p: string, k: ChainingKey)
    ensures k in RouteKeys(env, m, id, p) <==>
      (k.identifier == m + env.separator + id || k.identifier == m + env.separator + env.wildcard) &&
      (k.productCode == p || k.productCode == env.wildcard)
    ensures k in RouteKeys(env, m, id, p) ==> m + env.separator <= k.identifier
  {
    var ms := m + env.separator;
    assert m + env.separator + id == ms + id;
    assert m + env.separator + env.wildcard == ms + env.wildcard;
    assert ms <= ms + id && ms <= ms + env.wildcard;
  }

  /** Four keys when neither the identifier nor the product code is the
      wildcard; each one that is the wildcard halves the set. */
  lemma RouteKeysCount(env: Collaborators, m: string, id: string, p: string)
    ensures |RouteKeys(env, m, id, p)| ==
      (if id == env.wildcard then 1 else 2) * (if p == env.wildcard then 1 else 2)
  {
    var ms := m + env.separator;
    var exact, anyId := m + env.separator + id, m + env.separator + env.wildcard;
    assert exact == ms + id && anyId == ms + env.wildcard;
    var w := env.wildcard;
    if id == w {
      assert exact == anyId;
      if p == w {
        assert RouteKeys(env, m, id, p) == {ChainingKey(exact, w)};
      } else {
        assert RouteKeys(env, m, id, p) == {ChainingKey(exact, w), ChainingKey(exact, p)};
      }
    } else {
      assert exact != anyId by {
        if exact == anyId { AppendCancel(ms, id, w); }
      }
      if p == w {
        assert RouteKeys(env, m, id, p) == {ChainingKey(exact, w), ChainingKey(anyId, w)};
      } else {
        var k1, k2, k3, k4 := ChainingKey(exact, w), ChainingKey(exact, p), ChainingKey(anyId, p), ChainingKey(anyId, w);
        assert RouteKeys(env, m, id, p) == {k1, k2} + {k3, k4};
        assert |{k1, k2}| == 2 && |{k3, k4}| == 2;
        assert {k1, k2} !! {k3, k4};
      }
    }
  }

  /** An inbound and an outbound dispatch never share a cache key, whatever
      their other fields: the flag starts with the direction's name. */
  lemma DirectionsNeverShareFlag(env: Collaborators, m1: string, id1: string, p1: string,
                                 m2: string, id2: string, p2: string)
    ensures KeyFlag(env, INPUTTING, m1, id1, p1) != KeyFlag(env, OUTPUTTING, m2, id2, p2)
  {
    var n1, n2 := INPUTTING.Name(), OUTPUTTING.Name();
    var t1 := env.separator + m1 + env.separator + id1 + env.separator + p1;
    var t2 := env.separator + m2 + env.separator + id2 + env.separator + p2;
    assert KeyFlag(env, INPUTTING, m1, id1, p1) == n1 + t1;
    assert KeyFlag(env, OUTPUTTING, m2, id2, p2) == n2 + t2;
    assert (n1 + t1)[0] == n1[0] == 'I';
    assert (n2 + t2)[0] == n2[0] == 'O';
  }

  /** Two dispatches with the same direction, method type, identifier and
      product code derive the same keys and the same cache key, even when
      their method names differ. */
  lemma SameRouteSameKeys(env: Collaborators, dir: StreamingType, j1: Message, j2: Message)
    requires MethodTypeOf(j1, env).Some? && MethodTypeOf(j1, env) == MethodTypeOf(j2, env)
    requires env.subIdentifies(j1.methodName) == env.subIdentifies(j2.methodName)
    requires j1.productCode == j2.productCode
    ensures GetKeys(j1, dir, env).Ok? && GetKeys(j1, dir, env) == GetKeys(j2, dir, env)
  {
  }

  /** The cache key does not delimit its fields: when the separator occurs
      inside an identifier or a product code, two different routes (here the
      identifiers a+S+b and a) share one flag, and so one cache entry. */
  lemma FlagIgnoresFieldBoundaries(env: Collaborators, dir: StreamingType, m: string, a: string, b: string, p: string)
    ensures KeyFlag(env, dir, m, a + env.separator + b, p) == KeyFlag(env, dir, m, a, b + env.separator + p)
  {
  }

  /** getKeys yields the four-key cross product of the extracted route and a
      flag made of its four fields; it fails exactly when extraction fails. */
  lemma GetKeysSpec(jtm: Message, dir: StreamingType, env: Collaborators)
    ensures GetKeys(jtm, dir, env).Err? <==> MethodTypeOf(jtm, env).None?
    ensures GetKeys(jtm, dir, env).Err? ==> GetKeys(jtm, dir, env).error.ArrayIndexOutOfBounds?
    ensures GetKeys(jtm, dir, env).Ok? ==>
      var m := MethodTypeOf(jtm, env).value;
      var id := env.subIdentifies(jtm.methodName);
      var ks := GetKeys(jtm, dir, env).value;
      && |ks.keys| <= 4
      && (forall k :: k in ks.keys ==> m + env.separator <= k.identifier)
      && ChainingKey(m + env.separator + id, jtm.productCode) in ks.keys
      && ChainingKey(m + env.separator + env.wildcard, env.wildcard) in ks.keys
      && ks.keyFlag == KeyFlag(env, dir, m, id, jtm.productCode)
  {
    if GetKeys(jtm, dir, env).Ok? {
      var m := MethodTypeOf(jtm, env).value;
      var id := env.subIdentifies(jtm.methodName);
      RouteKeysCount(env, m, id, jtm.productCode);
      forall k | k in GetKeys(jtm, dir, env).value.keys
        ensures m + env.separator <= k.identifier
      {
        RouteKeysCrossProduct(env, m, id, jtm.productCode, k);
      }
    }
  }
}
