/**
  The hierarchical query-cache keys (`queryKeys`, `createQueryKey`). A key is an
  array; invalidating a key invalidates every cached key it is a prefix of, so the
  prefix structure decides what a mutation refreshes.
 */
module QueryKeys {
  import opened Js

  /** One element of a key: a name, a numeric id, or the `{ filters }` object. */
  datatype KeyPart = Name(name: string) | Id(id: int) | FilterSet(filters: map<string, Val>)

  type QueryKey = seq<KeyPart>

  /** The entity namespaces that share the list/detail shape. */
  datatype Entity = Users | Products | Orders | Categories

  function EntityName(e: Entity): string {
    match e
    case Users => "users"
    case Products => "products"
    case Orders => "orders"
    case Categories => "categories"
  }

  predicate IsPrefix(p: QueryKey, k: QueryKey) {
    |p| <= |k| && k[..|p|] == p
  }

  /**
    The cache entries an invalidation of `filter` reaches, for keys whose elements
    are compared whole: `filter` is a prefix of the entry's key, element by element.
   */
  predicate Invalidates(filter: QueryKey, k: QueryKey) {
    IsPrefix(filter, k)
  }

  function All(e: Entity): (k: QueryKey)
    ensures |k| == 1
  {
    [Name(EntityName(e))]
  }

  function Lists(e: Entity): (k: QueryKey)
    ensures |k| == 2 && IsPrefix(All(e), k) && k[1] == Name("list")
  {
    All(e) + [Name("list")]
  }

  function List(e: Entity, filters: map<string, Val>): (k: QueryKey)
    ensures |k| == 3 && IsPrefix(Lists(e), k) && k[2] == FilterSet(filters)
  {
    Lists(e) + [FilterSet(filters)]
  }

  function Details(e: Entity): (k: QueryKey)
    ensures |k| == 2 && IsPrefix(All(e), k) && k[1] == Name("detail")
  {
    All(e) + [Name("detail")]
  }

  function Detail(e: Entity, id: int): (k: QueryKey)
    ensures |k| == 3 && IsPrefix(Details(e), k) && k[2] == Id(id)
  {
    Details(e) + [Id(id)]
  }

  /** `queryKeys.products.categories()` */
  function ProductCategories(): (k: QueryKey)
    ensures |k| == 2 && IsPrefix(All(Products), k) && k[1] == Name("categories")
  {
    All(Products) + [Name("categories")]
  }

  const AuthAll: QueryKey := [Name("auth")]

  function AuthMe(): (k: QueryKey)
    ensures k == [Name("auth"), Name("me")]
  {
    AuthAll + [Name("me")]
  }

  function AuthProfile(): (k: QueryKey)
    ensures k == [Name("auth"), Name("profile")]
  {
    AuthAll + [Name("profile")]
  }

  function Names(base: seq<string>): (k: QueryKey)
    ensures |k| == |base| && forall i :: 0 <= i < |base| ==> k[i] == Name(base[i])
  {
    seq(|base|, i requires 0 <= i < |base| => Name(base[i]))
  }

  /** `createQueryKey(baseKey, filters)`: the filters are appended only when there are some. */
  function CreateQueryKey(base: seq<string>, filters: Option<map<string, Val>>): (k: QueryKey)
    ensures filters.None? || filters.value == map[] ==> k == Names(base)
    ensures filters.Some? && filters.value != map[] ==> k == Names(base) + [FilterSet(filters.value)]
  {
    if filters.None? || |filters.value.Keys| == 0 then Names(base)
    else Names(base) + [FilterSet(filters.value)]
  }

  /** Invalidating `lists()` reaches every list key, and no list key is `lists()` itself. */
  lemma ListsCoverEveryList(e: Entity, filters: map<string, Val>)
    ensures Invalidates(Lists(e), List(e, filters)) && Lists(e) != List(e, filters)
  {
  }

  /** List keys and detail keys part at index 1: neither family's root reaches the other. */
  lemma ListsAndDetailsDisjoint(e: Entity, filters: map<string, Val>, id: int)
    ensures !Invalidates(Lists(e), Detail(e, id)) && !Invalidates(Lists(e), Details(e))
    ensures !Invalidates(Details(e), List(e, filters)) && !Invalidates(Details(e), Lists(e))
  {
    assert Detail(e, id)[1] == Name("detail");
    assert List(e, filters)[1] == Name("list");
  }

  lemma DetailInjective(e: Entity, a: int, b: int)
    ensures Detail(e, a) == Detail(e, b) <==> a == b
  {
    if Detail(e, a) == Detail(e, b) {
      assert Detail(e, a)[2] == Id(a);
    }
  }

  /** Keys of different namespaces differ at index 0, so no invalidation crosses namespaces. */
  lemma NamespacesDisjoint(e1: Entity, e2: Entity, k: QueryKey)
    requires e1 != e2 && IsPrefix(All(e2), k)
    ensures !Invalidates(All(e1), k) && !Invalidates(AuthAll, k)
  {
    assert k[0] == All(e2)[0];
  }

  /** Invalidating a base key reaches every filtered variant `createQueryKey` builds from it. */
  lemma BaseCoversCreatedKeys(base: seq<string>, filters: Option<map<string, Val>>)
    ensures Invalidates(Names(base), CreateQueryKey(base, filters))
  {
  }
}
