/**
  `UserService`: the requests each method sends. `getUsers` appends every defined
  parameter to a query string; `updateProfile` and `updateUser` build a form that
  skips `undefined` and `null` fields, keeps files and stringifies the rest.
 */
module UserService {
  import opened Js
  import opened Http
  import opened FormUrlEncoded

  /** The query-string pairs of `getUsers`: every defined parameter, as `String(value)`. */
  function QueryPairs(params: Entries): (r: seq<(string, string)>)
    ensures |r| <= |params|
  {
    if params == [] then []
    else
      var last := params[|params| - 1];
      QueryPairs(params[..|params| - 1]) + if last.1 == Undefined then [] else [(last.0, ToJsString(last.1))]
  }

  /** Every defined parameter reaches the query, and nothing else does. */
  lemma {:induction false} QueryPairsExactly(params: Entries)
    ensures forall i :: 0 <= i < |params| && params[i].1 != Undefined ==> (params[i].0, ToJsString(params[i].1)) in QueryPairs(params)
    ensures forall p :: p in QueryPairs(params) ==> exists i :: 0 <= i < |params| && params[i].1 != Undefined && p == (params[i].0, ToJsString(params[i].1))
    ensures QueryPairs(params) == [] <==> forall i :: 0 <= i < |params| ==> params[i].1 == Undefined
    decreases |params|
  {
    if params != [] {
      var init := params[..|params| - 1];
      QueryPairsExactly(init);
      forall p | p in QueryPairs(params)
        ensures exists i :: 0 <= i < |params| && params[i].1 != Undefined && p == (params[i].0, ToJsString(params[i].1))
      {
        if p in QueryPairs(init) {
          var i :| 0 <= i < |init| && init[i].1 != Undefined && p == (init[i].0, ToJsString(init[i].1));
          assert params[i] == init[i];
        } else {
          assert p == (params[|params| - 1].0, ToJsString(params[|params| - 1].1));
        }
      }
      forall i | 0 <= i < |params| && params[i].1 != Undefined
        ensures (params[i].0, ToJsString(params[i].1)) in QueryPairs(params)
      {
        if i < |init| {
          assert params[i] == init[i];
        }
      }
      if QueryPairs(params) == [] {
        forall i | 0 <= i < |params|
          ensures params[i].1 == Undefined
        {
          if i < |init| {
            assert params[i] == init[i];
          }
        }
      }
    }
  }

  /** One entry gives one pair, or none when its value is `undefined`. */
  lemma QueryPairsSingle(e: (string, Val))
    ensures QueryPairs([e]) == if e.1 == Undefined then [] else [(e.0, ToJsString(e.1))]
  {
    assert [e][..0] == [];
  }

  /** The pairs of two runs of parameters are those of the first followed by those of the second. */
  lemma {:induction false} QueryPairsAppend(a: Entries, b: Entries)
    ensures QueryPairs(a + b) == QueryPairs(a) + QueryPairs(b)
    decreases |b|
  {
    if b == [] {
      assert a + b == a;
    } else {
      var ab, b' := a + b, b[..|b| - 1];
      assert ab[..|ab| - 1] == a + b';
      assert ab[|ab| - 1] == b[|b| - 1];
      QueryPairsAppend(a, b');
    }
  }

  /** The `getUsers` path for the serialized query. */
  function UsersUrl(query: string): (url: string)
    ensures query == "" ==> url == "/users"
    ensures query != "" ==> url == "/users?" + query
  {
    if query == "" then "/users" else "/users?" + query
  }

  /** `getUsers`: an absent `params` sends no query at all. */
  method GetUsers(params: Option<Entries>) returns (c: Call)
    ensures var pairs := if params.Some? then QueryPairs(params.value) else [];
      c == Call(GET, UsersUrl(Serialize(pairs)), NoBody, DataField)
  {
    var query := new SearchParams();
    if params.Some? {
      var entries := params.value;
      var i := 0;
      while i < |entries|
        invariant 0 <= i <= |entries|
        invariant query.pairs == QueryPairs(entries[..i])
      {
        var (key, value) := entries[i];
        assert entries[..i + 1][..i] == entries[..i];
        if value != Undefined {
          query.Append(key, ToJsString(value));
        }
        i := i + 1;
      }
      assert entries[..i] == entries;
    }
    c := Call(GET, UsersUrl(query.ToString()), NoBody, DataField);
  }

  /** The list path is bare exactly when no parameter is defined, and its query reads back to the pairs. */
  lemma UsersUrlShape(params: Entries)
    ensures UsersUrl(Serialize(QueryPairs(params))) == "/users" <==> forall i :: 0 <= i < |params| ==> params[i].1 == Undefined
    ensures Parse(Serialize(QueryPairs(params))) == PairBytes(QueryPairs(params))
  {
    QueryPairsExactly(params);
    SerializeEmpty(QueryPairs(params));
    ParseSerialize(QueryPairs(params));
    var q := Serialize(QueryPairs(params));
    if q != "" {
      assert ("/users?" + q)[6] == '?';
    }
  }

  /** Whether a form field is sent at all. */
  predicate Sent(v: Val) {
    v != Undefined && v != Null
  }

  /** A file is appended as is; anything else as `String(value)`. */
  function FormValueOf(v: Val): FormValue {
    if v.File? then FileValue(v.fileName) else TextValue(ToJsString(v))
  }

  /** The fields of the form `updateProfile` and `updateUser` send, in entry order. */
  function FormFields(data: Entries): (r: seq<(string, FormValue)>)
    ensures |r| <= |data|
  {
    if data == [] then []
    else
      var last := data[|data| - 1];
      FormFields(data[..|data| - 1]) + if Sent(last.1) then [(last.0, FormValueOf(last.1))] else []
  }

  /** Every sent field is in the form, exactly once per entry, and nothing unsent is. */
  lemma {:induction false} FormFieldsExactly(data: Entries)
    ensures forall i :: 0 <= i < |data| && Sent(data[i].1) ==> (data[i].0, FormValueOf(data[i].1)) in FormFields(data)
    ensures forall f :: f in FormFields(data) ==> exists i :: 0 <= i < |data| && Sent(data[i].1) && f == (data[i].0, FormValueOf(data[i].1))
    decreases |data|
  {
    if data != [] {
      var init := data[..|data| - 1];
      FormFieldsExactly(init);
      forall f | f in FormFields(data)
        ensures exists i :: 0 <= i < |data| && Sent(data[i].1) && f == (data[i].0, FormValueOf(data[i].1))
      {
        if f in FormFields(init) {
          var i :| 0 <= i < |init| && Sent(init[i].1) && f == (init[i].0, FormValueOf(init[i].1));
          assert data[i] == init[i];
        } else {
          assert f == (data[|data| - 1].0, FormValueOf(data[|data| - 1].1));
        }
      }
      forall i | 0 <= i < |data| && Sent(data[i].1)
        ensures (data[i].0, FormValueOf(data[i].1)) in FormFields(data)
      {
        if i < |init| {
          assert data[i] == init[i];
        }
      }
    }
  }

  /** The form of two runs of entries is the form of the first followed by that of the second. */
  lemma {:induction false} FormFieldsAppend(a: Entries, b: Entries)
    ensures FormFields(a + b) == FormFields(a) + FormFields(b)
    decreases |b|
  {
    if b == [] {
      assert a + b == a;
    } else {
      var ab, b' := a + b, b[..|b| - 1];
      assert ab[..|ab| - 1] == a + b';
      assert ab[|ab| - 1] == b[|b| - 1];
      FormFieldsAppend(a, b');
    }
  }

  /** The shared `forEach` over the entries that fills a `FormData`. */
  method BuildForm(data: Entries) returns (fields: seq<(string, FormValue)>)
    ensures fields == FormFields(data)
  {
    var form := new FormDataBuilder();
    var i := 0;
    while i < |data|
      invariant 0 <= i <= |data|
      invariant form.fields == FormFields(data[..i])
    {
      var (key, value) := data[i];
      assert data[..i + 1][..i] == data[..i];
      if value != Undefined && value != Null {
        form.Append(key, FormValueOf(value));
      }
      i := i + 1;
    }
    assert data[..i] == data;
    fields := form.fields;
  }

  const ProfileUrl := "/user/profile"

  /** `"/users/" + id`, shared by `getUserById`, `updateUser` and `deleteUser`. */
  function UserUrl(id: int): (u: string)
    ensures |u| == 7 + |IntToString(id)| && u[..7] == "/users/" && u[7..] == IntToString(id)
  {
    "/users/" + IntToString(id)
  }

  /** Distinct ids address distinct users. */
  lemma UserUrlInjective(a: int, b: int)
    ensures UserUrl(a) == UserUrl(b) <==> a == b
  {
    if UserUrl(a) == UserUrl(b) {
      assert UserUrl(a)[7..] == IntToString(a);
      assert UserUrl(b)[7..] == IntToString(b);
      IntToStringInjective(a, b);
    }
  }

  function GetProfile(): (c: Call)
    ensures c.verb == GET && c.url == "/user/profile" && c.body == NoBody && c.result == DataField
  {
    Call(GET, ProfileUrl, NoBody, DataField)
  }

  method UpdateProfile(userData: Entries) returns (c: Call)
    ensures c == Call(POST, ProfileUrl, Form(FormFields(userData)), DataField)
  {
    var fields := BuildForm(userData);
    c := Call(POST, ProfileUrl, Form(fields), DataField);
  }

  function ChangePassword(passwordData: Entries): (c: Call)
    ensures c.verb == POST && c.url == "/user/change-password" && c.body == Json(passwordData) && c.result == Envelope
  {
    Call(POST, "/user/change-password", Json(passwordData), Envelope)
  }

  function GetUserById(id: int): (c: Call)
    ensures c.verb == GET && c.url == UserUrl(id) && c.body == NoBody && c.result == DataField
  {
    Call(GET, UserUrl(id), NoBody, DataField)
  }

  method UpdateUser(id: int, userData: Entries) returns (c: Call)
    ensures c == Call(POST, UserUrl(id), Form(FormFields(userData)), DataField)
  {
    var fields := BuildForm(userData);
    c := Call(POST, UserUrl(id), Form(fields), DataField);
  }

  function DeleteUser(id: int): (c: Call)
    ensures c.verb == DELETE && c.url == UserUrl(id) && c.body == NoBody && c.result == Envelope
  {
    Call(DELETE, UserUrl(id), NoBody, Envelope)
  }

  function UploadAvatar(fileName: string): (c: Call)
    ensures c.verb == POST && c.url == "/user/avatar" && c.result == DataField
    ensures c.body == Form([("avatar", FileValue(fileName))])
  {
    Call(POST, "/user/avatar", Form([("avatar", FileValue(fileName))]), DataField)
  }

  /** Reading, updating and deleting one user address the same path, and only that user's. */
  lemma OneUserOnePath(id: int, other: int)
    requires id != other
    ensures GetUserById(id).url == DeleteUser(id).url == UserUrl(id)
    ensures GetUserById(id).url != GetUserById(other).url
  {
    UserUrlInjective(id, other);
  }

  /** Only `changePassword` and `deleteUser` hand back the whole envelope. */
  lemma EnvelopeOnlyForPasswordAndDelete(passwordData: Entries, id: int, fileName: string)
    ensures ChangePassword(passwordData).result == Envelope && DeleteUser(id).result == Envelope
    ensures GetProfile().result == DataField && GetUserById(id).result == DataField
    ensures UploadAvatar(fileName).result == DataField
  {
  }

  /** The avatar upload sends one field, the file itself. */
  lemma UploadSendsOneField(fileName: string)
    ensures UploadAvatar(fileName).body.Form? && |UploadAvatar(fileName).body.fields| == 1
    ensures UploadAvatar(fileName).body.fields[0] == ("avatar", FileValue(fileName))
  {
  }
}
