/**
  `roleApi`: the requests of the role screens. `getRoles` sends every filter that
  is not `undefined`, `null` or `""`; `updateRole` moves `id` from the body into
  the path. Every path is built from the base `v2/roles`, except that `createRole`
  writes its path in plain double quotes, so the placeholder is sent literally.
 */
module RoleApi {
  import opened Js
  import opened Http
  import opened FormUrlEncoded

  const BaseUrl := "v2/roles"
  const RolesPath := "/" + BaseUrl

  /** `value !== undefined && value !== null && value !== ""` */
  predicate Kept(v: Val) {
    v != Undefined && v != Null && v != Str("")
  }

  /** The query pairs of `getRoles`, values as `value.toString()`. */
  function RoleQueryPairs(filters: Entries): (r: seq<(string, string)>)
    ensures |r| <= |filters|
  {
    if filters == [] then []
    else
      var last := filters[|filters| - 1];
      RoleQueryPairs(filters[..|filters| - 1]) + if Kept(last.1) then [(last.0, ToJsString(last.1))] else []
  }

  /** Exactly the kept filters reach the query. */
  lemma {:induction false} RoleQueryPairsExactly(filters: Entries)
    ensures forall i :: 0 <= i < |filters| && Kept(filters[i].1) ==> (filters[i].0, ToJsString(filters[i].1)) in RoleQueryPairs(filters)
    ensures forall p :: p in RoleQueryPairs(filters) ==> exists i :: 0 <= i < |filters| && Kept(filters[i].1) && p == (filters[i].0, ToJsString(filters[i].1))
    decreases |filters|
  {
    if filters != [] {
      var init := filters[..|filters| - 1];
      RoleQueryPairsExactly(init);
      forall p | p in RoleQueryPairs(filters)
        ensures exists i :: 0 <= i < |filters| && Kept(filters[i].1) && p == (filters[i].0, ToJsString(filters[i].1))
      {
        if p in RoleQueryPairs(init) {
          var i :| 0 <= i < |init| && Kept(init[i].1) && p == (init[i].0, ToJsString(init[i].1));
          assert filters[i] == init[i];
        } else {
          assert p == (filters[|filters| - 1].0, ToJsString(filters[|filters| - 1].1));
        }
      }
      forall i | 0 <= i < |filters| && Kept(filters[i].1)
        ensures (filters[i].0, ToJsString(filters[i].1)) in RoleQueryPairs(filters)
      {
        if i < |init| {
          assert filters[i] == init[i];
        }
      }
    }
  }

  /** One filter gives one pair, or none when it is not kept. */
  lemma RoleQueryPairsSingle(e: (string, Val))
    ensures RoleQueryPairs([e]) == if Kept(e.1) then [(e.0, ToJsString(e.1))] else []
  {
    assert [e][..0] == [];
  }

  /** The pairs of two runs of filters are those of the first followed by those of the second. */
  lemma {:induction false} RoleQueryPairsAppend(a: Entries, b: Entries)
    ensures RoleQueryPairs(a + b) == RoleQueryPairs(a) + RoleQueryPairs(b)
    decreases |b|
  {
    if b == [] {
      assert a + b == a;
    } else {
      var ab, b' := a + b, b[..|b| - 1];
      assert ab[..|ab| - 1] == a + b';
      assert ab[|ab| - 1] == b[|b| - 1];
      RoleQueryPairsAppend(a, b');
    }
  }

  /** Falsy values other than `""` are still sent: a `0` page and a `false` flag reach the server. */
  lemma ZeroAndFalseAreSent(key: string, flag: string)
    ensures RoleQueryPairs([(key, Num(0)), (flag, Bool(false))]) == [(key, "0"), (flag, "false")]
    ensures RoleQueryPairs([(key, Str("")), (flag, Null)]) == []
  {
    var f := [(key, Num(0)), (flag, Bool(false))];
    assert f[..1] == [(key, Num(0))];
    assert f[..1][..0] == [];
    var g := [(key, Str("")), (flag, Null)];
    assert g[..1] == [(key, Str(""))];
    assert g[..1][..0] == [];
  }

  /** The `getRoles` path: the `?` is written even when the query is empty. */
  function RolesUrl(query: string): (u: string)
    ensures |u| == 10 + |query| && u[..10] == "/v2/roles?" && u[10..] == query
  {
    RolesPath + "?" + query
  }

  /** `getRoles`, whose `filters` default to `{}`. */
  method GetRoles(filters: Option<Entries>) returns (c: Call)
    ensures c == Call(GET, RolesUrl(Serialize(RoleQueryPairs(filters.GetOr([])))), NoBody, DataField)
  {
    var entries := filters.GetOr([]);
    var params := new SearchParams();
    var i := 0;
    while i < |entries|
      invariant 0 <= i <= |entries|
      invariant params.pairs == RoleQueryPairs(entries[..i])
    {
      var (key, value) := entries[i];
      assert entries[..i + 1][..i] == entries[..i];
      if value != Undefined && value != Null && value != Str("") {
        params.Append(key, ToJsString(value));
      }
      i := i + 1;
    }
    assert entries[..i] == entries;
    c := Call(GET, RolesUrl(params.ToString()), NoBody, DataField);
  }

  /** With nothing to send, the list path is `/v2/roles?`, question mark included. */
  lemma {:induction false} NothingKeptBareUrl(filters: Entries)
    requires forall i :: 0 <= i < |filters| ==> !Kept(filters[i].1)
    ensures RoleQueryPairs(filters) == []
    ensures RolesUrl(Serialize(RoleQueryPairs(filters))) == "/v2/roles?"
    decreases |filters|
  {
    if filters != [] {
      NothingKeptBareUrl(filters[..|filters| - 1]);
    }
  }

  /** `/v2/roles/<id>` */
  function RoleUrl(id: string): (u: string)
    ensures |u| == 10 + |id| && u[..10] == "/v2/roles/" && u[10..] == id
  {
    RolesPath + "/" + id
  }

  lemma RoleUrlInjective(a: string, b: string)
    ensures RoleUrl(a) == RoleUrl(b) <==> a == b
  {
    if RoleUrl(a) == RoleUrl(b) {
      assert RoleUrl(a)[10..] == a;
      assert RoleUrl(b)[10..] == b;
    }
  }

  function GetRoleById(id: string): (c: Call)
    ensures c.verb == GET && c.url == RoleUrl(id) && c.body == NoBody && c.result == DataField
  {
    Call(GET, RoleUrl(id), NoBody, DataField)
  }

  /** The path `createRole` posts to as written: the placeholder itself. */
  const LiteralPlaceholderPath := "/${BASE_URL}"

  function CreateRoleAsWritten(data: Entries): (c: Call)
    ensures c.verb == POST && c.url == "/${BASE_URL}" && c.body == Json(data) && c.result == DataField
  {
    Call(POST, LiteralPlaceholderPath, Json(data), DataField)
  }

  /** As written, a new role is not posted to the roles collection. */
  lemma CreateRoleAsWrittenMissesCollection(data: Entries)
    ensures CreateRoleAsWritten(data).url != RolesPath
    ensures CreateRoleAsWritten(data).url[1] == '$'
  {
    assert CreateRoleAsWritten(data).url[1] == '$';
    assert RolesPath[1] == 'v';
  }

  /** `createRole` with the template literal the other methods use. */
  function CreateRole(data: Entries): (c: Call)
    ensures c.verb == POST && c.url == "/v2/roles" && c.body == Json(data) && c.result == DataField
  {
    Call(POST, RolesPath, Json(data), DataField)
  }

  /** Corrected, a new role is posted to the very path the list is read from, without the query. */
  lemma CreateRolePostsToCollection(data: Entries, filters: Entries)
    ensures CreateRole(data).url == "/v2/roles"
    ensures RolesUrl(Serialize(RoleQueryPairs(filters))) == CreateRole(data).url + "?" + Serialize(RoleQueryPairs(filters))
  {
  }

  /** The property named `key`, `undefined` when absent. */
  function Lookup(entries: Entries, key: string): (v: Val)
    ensures v != Undefined ==> exists i :: 0 <= i < |entries| && entries[i] == (key, v)
    ensures (forall i :: 0 <= i < |entries| ==> entries[i].0 != key) ==> v == Undefined
    ensures forall i :: 0 <= i < |entries| && entries[i].0 == key && (forall j :: 0 <= j < i ==> entries[j].0 != key) ==>
      v == entries[i].1
  {
    if entries == [] then Undefined
    else if entries[0].0 == key then entries[0].1
    else Lookup(entries[1..], key)
  }

  /** `const { id, ...updateData } = data`: the rest, in order, without `id`. */
  function WithoutKey(entries: Entries, key: string): (r: Entries)
    ensures forall i :: 0 <= i < |r| ==> r[i].0 != key
    ensures forall e :: e in entries && e.0 != key ==> e in r
    ensures forall e :: e in r ==> e in entries
  {
    if entries == [] then []
    else
      var rest := WithoutKey(entries[1..], key);
      if entries[0].0 == key then rest else [entries[0]] + rest
  }

  /** `updateRole`: `id` goes to the path (`undefined` if missing) and never into the body. */
  function UpdateRole(data: Entries): (c: Call)
    ensures c.verb == PUT && c.body.Json?
    ensures forall i :: 0 <= i < |c.body.entries| ==> c.body.entries[i].0 != "id"
    ensures forall e :: e in data && e.0 != "id" ==> e in c.body.entries
    ensures c.url == RoleUrl(ToJsString(Lookup(data, "id")))
  {
    Call(PUT, RoleUrl(ToJsString(Lookup(data, "id"))), Json(WithoutKey(data, "id")), DataField)
  }

  /**
    `{ id, ...rest }` wherever `id` stands among the keys: the role is updated at the
    path of its id, and the body is every other entry, in order.
   */
  lemma UpdateRoleRoutesById(data: Entries, k: nat, id: string)
    requires k < |data| && data[k] == ("id", Str(id))
    requires forall i :: 0 <= i < |data| && i != k ==> data[i].0 != "id"
    ensures UpdateRole(data).url == RoleUrl(id)
    ensures UpdateRole(data).body == Json(data[..k] + data[k + 1..])
  {
    assert forall j :: 0 <= j < k ==> data[j].0 != "id";
    assert Lookup(data, "id") == Str(id);
    WithoutKeyAt(data, k, "id");
  }

  /** Dropping the one entry named `key` leaves the entries before it and after it. */
  lemma {:induction false} WithoutKeyAt(data: Entries, k: nat, key: string)
    requires k < |data| && data[k].0 == key
    requires forall i :: 0 <= i < |data| && i != k ==> data[i].0 != key
    ensures WithoutKey(data, key) == data[..k] + data[k + 1..]
    decreases k
  {
    TailKeepsOthers(data, k, key);
    if k == 0 {
      WithoutUnusedKey(data[1..], key);
    } else {
      WithoutKeyAt(data[1..], k - 1, key);
      WithoutKeyStep(data, k, key);
    }
  }

  /** One step of `WithoutKeyAt`: an entry before the key is kept in front. */
  lemma WithoutKeyStep(data: Entries, k: nat, key: string)
    requires 0 < k < |data| && data[0].0 != key
    requires WithoutKey(data[1..], key) == data[1..][..k - 1] + data[1..][k..]
    ensures WithoutKey(data, key) == data[..k] + data[k + 1..]
  {
    var tail := data[1..];
    assert data[..k] == [data[0]] + tail[..k - 1];
    assert data[k + 1..] == tail[k..];
  }

  lemma TailKeepsOthers(data: Entries, k: nat, key: string)
    requires 0 < |data|
    requires forall i :: 0 <= i < |data| && i != k ==> data[i].0 != key
    ensures forall i :: 0 <= i < |data| - 1 && i != k - 1 ==> data[1..][i].0 != key
  {
    forall i | 0 <= i < |data| - 1 && i != k - 1 ensures data[1..][i].0 != key {
      assert data[1..][i] == data[i + 1];
    }
  }

  lemma {:induction false} WithoutKeyAppend(a: Entries, b: Entries, key: string)
    ensures WithoutKey(a + b, key) == WithoutKey(a, key) + WithoutKey(b, key)
    decreases |a|
  {
    if a == [] {
      assert a + b == b;
    } else {
      assert (a + b)[0] == a[0] && (a + b)[1..] == a[1..] + b;
      WithoutKeyAppend(a[1..], b, key);
    }
  }

  lemma {:induction false} WithoutUnusedKey(entries: Entries, key: string)
    requires forall i :: 0 <= i < |entries| ==> entries[i].0 != key
    ensures WithoutKey(entries, key) == entries
  {
    if entries != [] {
      WithoutUnusedKey(entries[1..], key);
      assert [entries[0]] + entries[1..] == entries;
    }
  }

  function DeleteRole(id: string): (c: Call)
    ensures c.verb == DELETE && c.url == RoleUrl(id) && c.body == NoBody && c.result == DataField
  {
    Call(DELETE, RoleUrl(id), NoBody, DataField)
  }

  function GetPermissions(): (c: Call)
    ensures c.verb == GET && c.url == "/permissions" && c.body == NoBody && c.result == DataField
  {
    Call(GET, "/permissions", NoBody, DataField)
  }

  function UpdateRoleStatus(id: string, status: string): (c: Call)
    ensures c.verb == PATCH && c.url == RoleUrl(id) + "/status" && c.result == DataField
    ensures c.body == Json([("status", Str(status))])
  {
    Call(PATCH, RoleUrl(id) + "/status", Json([("status", Str(status))]), DataField)
  }

  function DuplicateRole(id: string, name: string): (c: Call)
    ensures c.verb == POST && c.url == RoleUrl(id) + "/duplicate" && c.result == DataField
    ensures c.body == Json([("name", Str(name))])
  {
    Call(POST, RoleUrl(id) + "/duplicate", Json([("name", Str(name))]), DataField)
  }

  /** Every role path but `createRole`'s lies under `/v2/roles`. */
  lemma RolePathsUnderBase(id: string, status: string, name: string, data: Entries)
    ensures var p := RolesPath + "/";
      GetRoleById(id).url[..|p|] == p && DeleteRole(id).url[..|p|] == p &&
      UpdateRoleStatus(id, status).url[..|p|] == p && DuplicateRole(id, name).url[..|p|] == p &&
      UpdateRole(data).url[..|p|] == p
  {
  }

  /** A status change and a duplication never reach the same path, whatever the two ids. */
  lemma StatusAndDuplicateDiffer(a: string, b: string, status: string, name: string)
    ensures UpdateRoleStatus(a, status).url != DuplicateRole(b, name).url
  {
    var s, d := UpdateRoleStatus(a, status).url, DuplicateRole(b, name).url;
    assert s[|s| - 1] == 's';
    assert d[|d| - 1] == 'e';
  }
}
