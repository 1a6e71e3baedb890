/**
 * `Conn` of the conn/ package (eanalytics_api_py/conn/__init__.py): argument
 * checks, the API URLs, the class-level cache of verified credentials, and
 * the two lookups other downloads rely on (view map, website properties).
 */
module Connection {
  import opened Wrappers
  import opened Text
  import opened PyValue
  import opened Remote
  import JsonRequest

  /** The fields `__init__` sets; none of them changes afterwards. */
  datatype Conn = Conn(
    datacenter: string,
    gridpool: string,
    baseUrl: string,
    apiV2: string,
    apiKey: string,
    headers: Py,
    printLog: bool)

  predicate NonEmptyStr(v: Py)
  {
    v.PStr? && v.s != ""
  }

  /** The checks and assignments of `__init__` before the credentials are looked at. */
  function Configure(gridpool: Py, datacenter: Py, apiKey: Py, printLog: Py): (r: Result<Conn>)
    ensures r.Ok? <==> printLog.PBool? && NonEmptyStr(gridpool) && NonEmptyStr(datacenter) && NonEmptyStr(apiKey)
    ensures r.Fail? ==> r.error.kind == TypeError
    ensures r.Ok? ==> r.value.baseUrl == "https://" + gridpool.s + ".api.eulerian." + datacenter.s
    ensures r.Ok? ==> r.value.apiV2 == r.value.baseUrl + "/ea/v2"
    ensures r.Ok? ==> r.value.headers == PDict(map["Authorization" := PStr("Bearer " + apiKey.s)])
    ensures r.Ok? ==> (r.value.gridpool == gridpool.s && r.value.datacenter == datacenter.s
                       && r.value.apiKey == apiKey.s && r.value.printLog == printLog.b)
  {
    if !printLog.PBool? then Raise(TypeError, "print_log should be a boolean type")
    else if !NonEmptyStr(gridpool) then Raise(TypeError, "gridpool_name should be a non-null string type")
    else if !NonEmptyStr(datacenter) then Raise(TypeError, "datacenter should be a non-null string type")
    else if !NonEmptyStr(apiKey) then Raise(TypeError, "api_key should be a non-null string type")
    else
      var baseUrl := "https://" + gridpool.s + ".api.eulerian." + datacenter.s;
      Ok(Conn(datacenter.s, gridpool.s, baseUrl, baseUrl + "/ea/v2", apiKey.s,
              PDict(map["Authorization" := PStr("Bearer " + apiKey.s)]), printLog.b))
  }

  /** The bearer token the request helper reads back is the API key (one without spaces). */
  lemma HeadersCarryApiKey(gridpool: Py, datacenter: Py, apiKey: Py, printLog: Py)
    requires Configure(gridpool, datacenter, apiKey, printLog).Ok?
    requires ' ' !in apiKey.s
    ensures JsonRequest.BearerToken(Configure(gridpool, datacenter, apiKey, printLog).value.headers) == Ok(apiKey.s)
  {
    var auth := "Bearer " + apiKey.s;
    var tail := apiKey.s;
    assert auth == "Bearer" + (" " + tail);
    assert IndexOf(" " + tail, ' ') == 0;
    IndexOfAppend("Bearer", " " + tail, ' ');
    assert auth[..6] == "Bearer" && auth[7..] == tail;
    assert IndexOf(tail, ' ') == |tail| by {
      IndexOfAbsent(tail, ' ');
    }
    assert Split(tail, ' ') == [tail];
    assert Split(auth, ' ') == [auth[..6]] + Split(auth[7..], ' ');
  }

  lemma {:induction false} IndexOfAbsent(s: string, c: char)
    requires forall k | 0 <= k < |s| :: s[k] != c
    ensures IndexOf(s, c) == |s|
    decreases |s|
  {
    if |s| > 0 {
      IndexOfAbsent(s[1..], c);
    }
  }

  /** `_creds_hex_digest`: md5 of datacenter + gridpool + api key, concatenated. */
  function CredsDigest(c: Conn, md5: string -> string): string
  {
    md5(c.datacenter + c.gridpool + c.apiKey)
  }

  /** Credentials whose concatenations agree share one cache entry, whatever the hash. */
  lemma EqualConcatenationsShareEntry(c1: Conn, c2: Conn, md5: string -> string)
    requires c1.datacenter + c1.gridpool + c1.apiKey == c2.datacenter + c2.gridpool + c2.apiKey
    ensures CredsDigest(c1, md5) == CredsDigest(c2, md5)
  {
  }

  /** Two different grids with one digest: "com"+"demo" and "co"+"mdemo". */
  lemma DistinctGridsCollide(key: string, md5: string -> string)
    requires key != ""
    ensures Configure(PStr("demo"), PStr("com"), PStr(key), PBool(true)).Ok?
    ensures Configure(PStr("mdemo"), PStr("co"), PStr(key), PBool(true)).Ok?
    ensures Configure(PStr("demo"), PStr("com"), PStr(key), PBool(true)).value.baseUrl
         != Configure(PStr("mdemo"), PStr("co"), PStr(key), PBool(true)).value.baseUrl
    ensures CredsDigest(Configure(PStr("demo"), PStr("com"), PStr(key), PBool(true)).value, md5)
         == CredsDigest(Configure(PStr("mdemo"), PStr("co"), PStr(key), PBool(true)).value, md5)
  {
    var c1 := Configure(PStr("demo"), PStr("com"), PStr(key), PBool(true)).value;
    var c2 := Configure(PStr("mdemo"), PStr("co"), PStr(key), PBool(true)).value;
    assert c1.datacenter + c1.gridpool + c1.apiKey == "comdemo" + key;
    assert c2.datacenter + c2.gridpool + c2.apiKey == "comdemo" + key;
    assert c1.baseUrl[8] != c2.baseUrl[8];
  }

  /** `_check_credentials`: one GET on the account tree through `_to_json`. */
  function CheckCredentials(c: Conn, replies: seq<Reply>): Outcome<Py>
  {
    JsonRequest.Call(PStr("get"), PStr(c.apiV2 + "/er/account/authtree.json"), c.headers, PNone, PNone, replies)
  }

  /** The outcome of `Conn(...)` and the cache it leaves, from the cache it starts with. */
  function ConnectSpec(cached: set<string>, gridpool: Py, datacenter: Py, apiKey: Py, printLog: Py,
                       md5: string -> string, replies: seq<Reply>): (Outcome<Conn>, set<string>)
  {
    match Configure(gridpool, datacenter, apiKey, printLog)
    case Fail(e) => (Outcome(Fail(e), [], replies), cached)
    case Ok(c) =>
      var d := CredsDigest(c, md5);
      if d in cached then (Outcome(Ok(c), [], replies), cached)
      else
        var chk := CheckCredentials(c, replies);
        match chk.result
        case Fail(e) => (Outcome(Fail(e), chk.trace, chk.rest), cached)
        case Ok(_) => (Outcome(Ok(c), chk.trace, chk.rest), cached + {d})
  }

  /** The cache only grows, and only by the digest of credentials just verified. */
  lemma CacheGrowsOnlyAfterCheck(cached: set<string>, gridpool: Py, datacenter: Py, apiKey: Py,
                                 printLog: Py, md5: string -> string, replies: seq<Reply>)
    ensures var (o, after) := ConnectSpec(cached, gridpool, datacenter, apiKey, printLog, md5, replies);
      cached <= after
      && (after != cached ==>
            (o.result.Ok?
             && after == cached + {CredsDigest(o.result.value, md5)}
             && |o.trace| == 1
             && CheckCredentials(o.result.value, replies).result.Ok?))
  {
  }

  /** Once verified, the same credentials are accepted again without any request. */
  lemma SecondConnectSendsNothing(cached: set<string>, gridpool: Py, datacenter: Py, apiKey: Py,
                                  printLog: Py, md5: string -> string, replies1: seq<Reply>, replies2: seq<Reply>)
    requires ConnectSpec(cached, gridpool, datacenter, apiKey, printLog, md5, replies1).0.result.Ok?
    ensures var after := ConnectSpec(cached, gridpool, datacenter, apiKey, printLog, md5, replies1).1;
      var o2 := ConnectSpec(after, gridpool, datacenter, apiKey, printLog, md5, replies2).0;
      o2.result.Ok? && o2.trace == [] && o2.rest == replies2
  {
  }

  /** `Conn._cached_creds`: digests of credentials already verified, shared by all instances. */
  class CredentialCache {
    var digests: set<string>

    constructor()
      ensures digests == {}
    {
      digests := {};
    }

    /** `Conn.__init__`: check the credentials unless cached, and cache them once verified. */
    method Connect(gridpool: Py, datacenter: Py, apiKey: Py, printLog: Py,
                   md5: string -> string, replies: seq<Reply>) returns (o: Outcome<Conn>)
      modifies this
      ensures (o, digests) == ConnectSpec(old(digests), gridpool, datacenter, apiKey, printLog, md5, replies)
    {
      var conf := Configure(gridpool, datacenter, apiKey, printLog);
      if conf.Fail? {
        return Outcome(Fail(conf.error), [], replies);
      }
      var c := conf.value;
      var d := CredsDigest(c, md5);
      if d in digests {
        return Outcome(Ok(c), [], replies);
      }
      var chk := CheckCredentials(c, replies);
      if chk.result.Fail? {
        return Outcome(Fail(chk.result.error), chk.trace, chk.rest);
      }
      digests := digests + {d};
      o := Outcome(Ok(c), chk.trace, chk.rest);
    }
  }

  // -----------------------------------------------------------------
  // Lookups
  // -----------------------------------------------------------------

  /** A dict built by a comprehension: later pairs overwrite earlier ones. */
  function Collect(pairs: seq<(Py, Py)>): (m: map<Py, Py>)
    ensures m.Keys == set i | 0 <= i < |pairs| :: pairs[i].0
    decreases |pairs|
  {
    if |pairs| == 0 then map[]
    else
      var m := Collect(pairs[..|pairs| - 1]);
      assert forall i | 0 <= i < |pairs| - 1 :: pairs[..|pairs| - 1][i] == pairs[i];
      m[pairs[|pairs| - 1].0 := pairs[|pairs| - 1].1]
  }

  /** For a repeated key the value of its last pair wins. */
  lemma {:induction false} CollectLastWins(pairs: seq<(Py, Py)>, i: nat)
    requires i < |pairs|
    requires forall j | i < j < |pairs| :: pairs[j].0 != pairs[i].0
    ensures pairs[i].0 in Collect(pairs) && Collect(pairs)[pairs[i].0] == pairs[i].1
    decreases |pairs|
  {
    if i < |pairs| - 1 {
      var init := pairs[..|pairs| - 1];
      assert forall j | i < j < |init| :: init[j] == pairs[j];
      CollectLastWins(init, i);
    }
  }

  /**
   * `xs.index(x)`: the first position of an item in a list, or of a
   * substring in a string; other objects have no `index` method.
   */
  function IndexIn(xs: Py, x: Py): (r: Result<nat>)
    ensures r.Ok? ==> (xs.PList? && r.value < |xs.items| && xs.items[r.value] == x)
                      || (xs.PStr? && x.PStr? && OccursAt(xs.s, x.s, r.value))
    ensures r.Ok? && xs.PList? ==> forall k | 0 <= k < r.value :: xs.items[k] != x
    ensures r.Ok? && xs.PStr? ==> forall k: nat | k < r.value :: !OccursAt(xs.s, x.s, k)
    ensures xs.PList? && x in xs.items ==> r.Ok?
    ensures xs.PStr? && x.PStr? && (exists k: nat :: OccursAt(xs.s, x.s, k)) ==> r.Ok?
    ensures r.Fail? && xs.PList? ==> r.error.kind == ValueError
    ensures xs.PStr? && !x.PStr? ==> r.Fail? && r.error.kind == TypeError
    ensures !xs.PList? && !xs.PStr? ==> r.Fail? && r.error.kind == AttributeError
  {
    match xs
    case PList(items) =>
      if x in items then Ok(FirstIndex(items, x)) else Raise(ValueError, "is not in list")
    case PStr(s) =>
      if !x.PStr? then Raise(TypeError, "must be str")
      else
        var k := FindSub(s, x.s, 0);
        if k <= |s| then Ok(k) else Raise(ValueError, "substring not found")
    case _ => Raise(AttributeError, "object has no attribute 'index'")
  }

  function FirstIndex(xs: seq<Py>, x: Py): (k: nat)
    requires x in xs
    ensures k < |xs| && xs[k] == x && forall j | 0 <= j < k :: xs[j] != x
  {
    if xs[0] == x then 0 else 1 + FirstIndex(xs[1..], x)
  }

  /** Dict keys must be hashable: lists and dicts are not. */
  predicate Hashable(v: Py)
  {
    !v.PList? && !v.PDict?
  }

  /**
   * `{view[i]: view[j] for view in rows}` as the list of pairs it inserts:
   * for each row the key, then the value, then the key's hash.
   */
  function RowPairs(rows: seq<Py>, keyIdx: int, valueIdx: int): (r: Result<seq<(Py, Py)>>)
    ensures r.Ok? ==> |r.value| == |rows|
    ensures r.Ok? ==> forall k | 0 <= k < |rows| ::
      At(rows[k], keyIdx) == Ok(r.value[k].0) && At(rows[k], valueIdx) == Ok(r.value[k].1)
        && Hashable(r.value[k].0)
    ensures r.Fail? ==> exists k | 0 <= k < |rows| ::
      At(rows[k], keyIdx).Fail? || At(rows[k], valueIdx).Fail? || !Hashable(At(rows[k], keyIdx).value)
    decreases |rows|
  {
    if |rows| == 0 then Ok([])
    else
      var key :- At(rows[0], keyIdx);
      var value :- At(rows[0], valueIdx);
      if !Hashable(key) then Raise(TypeError, "unhashable type")
      else
        var rest :- RowPairs(rows[1..], keyIdx, valueIdx);
        Ok([(key, value)] + rest)
  }

  const ViewIdField: Py := PDict(map["name" := PStr("view_id")])
  const ViewNameField: Py := PDict(map["name" := PStr("view_name")])
  const DefaultViewKey: Py := PStr("0")
  const DefaultViewName: Py := PStr("last channel")

  /** The comprehension's dict, completed by the default attribution rule. */
  function WithDefaultView(pairs: seq<(Py, Py)>): map<Py, Py>
  {
    var views := Collect(pairs);
    if DefaultViewKey in views then views else views[DefaultViewKey := DefaultViewName]
  }

  /** The view map built from the decoded reply of `get_all_name.json`. */
  function ViewMap(viewJson: Py): (r: Result<map<Py, Py>>)
  {
    var data :- Get(viewJson, "data");
    var fields :- Get(data, "fields");
    var idIdx :- IndexIn(fields, ViewIdField);
    var nameIdx :- IndexIn(fields, ViewNameField);
    var rows :- Get(data, "rows");
    var views :- Items(rows);
    var pairs :- RowPairs(views, idIdx, nameIdx);
    Ok(WithDefaultView(pairs))
  }

  /**
   * Each view id maps to the name of the last row carrying it, and "0"
   * maps to "last channel" exactly when no row carries "0".
   */
  lemma ViewMapContents(pairs: seq<(Py, Py)>, i: nat)
    requires i < |pairs|
    ensures (forall j | i < j < |pairs| :: pairs[j].0 != pairs[i].0) ==>
      pairs[i].0 in WithDefaultView(pairs) && WithDefaultView(pairs)[pairs[i].0] == pairs[i].1
    ensures DefaultViewKey in WithDefaultView(pairs)
    ensures (forall k | 0 <= k < |pairs| :: pairs[k].0 != DefaultViewKey)
            ==> WithDefaultView(pairs)[DefaultViewKey] == DefaultViewName
  {
    if forall j | i < j < |pairs| :: pairs[j].0 != pairs[i].0 {
      CollectLastWins(pairs, i);
    }
  }

  /** `get_view_id_name_map`: TypeError before any request for a non-string website. */
  function GetViewIdNameMap(c: Conn, websiteName: Py, replies: seq<Reply>): (o: Outcome<map<Py, Py>>)
    ensures !websiteName.PStr? ==> o.result.Fail? && o.result.error.kind == TypeError && o.trace == []
    ensures |o.rest| <= |replies|
  {
    if !websiteName.PStr? then Outcome(Raise(TypeError, "website_name should be a string"), [], replies)
    else
      var url := c.apiV2 + "/ea/" + websiteName.s + "/db/view/get_all_name.json";
      var call := JsonRequest.Call(PStr("get"), PStr(url), c.headers, PNone, PNone, replies);
      match call.result
      case Fail(e) => Outcome(Fail(e), call.trace, call.rest)
      case Ok(j) => Outcome(ViewMap(j), call.trace, call.rest)
  }

  /**
   * The i-th pair of the website comprehension: `fields[i]["name"]`, then
   * `data["rows"][0][i]` (the rows are looked up afresh for each i), then
   * the hash of the name.
   */
  function FieldAt(data: Py, fields: Py, i: nat): (r: Result<(Py, Py)>)
    ensures r.Ok? ==> fields.PList? && i < |fields.items|
    ensures r.Ok? ==> Get(fields.items[i], "name") == Ok(r.value.0) && Hashable(r.value.0)
    ensures r.Ok? ==> Get(data, "rows").Ok? && At(Get(data, "rows").value, 0).Ok?
    ensures r.Ok? ==> At(At(Get(data, "rows").value, 0).value, i) == Ok(r.value.1)
  {
    var field :- At(fields, i);
    var name :- Get(field, "name");
    var rows :- Get(data, "rows");
    var first :- At(rows, 0);
    var value :- At(first, i);
    if !Hashable(name) then Raise(TypeError, "unhashable type")
    else Ok((name, value))
  }

  /** `{fields[i]["name"]: rows[0][i] for i in range(n)}` as its pairs, from position `from` on. */
  function FieldPairs(data: Py, fields: Py, n: nat, from: nat): (r: Result<seq<(Py, Py)>>)
    requires from <= n
    ensures r.Ok? ==> |r.value| == n - from
    ensures r.Ok? ==> forall k | 0 <= k < |r.value| :: FieldAt(data, fields, from + k) == Ok(r.value[k])
    ensures r.Fail? ==> exists k | from <= k < n :: FieldAt(data, fields, k).Fail?
    decreases n - from
  {
    if from == n then Ok([])
    else
      var pair :- FieldAt(data, fields, from);
      var rest :- FieldPairs(data, fields, n, from + 1);
      Ok([pair] + rest)
  }

  /** The website properties built from the decoded reply of `get_me.json`. */
  function WebsiteMap(websiteJson: Py): Result<map<Py, Py>>
  {
    var data :- Get(websiteJson, "data");
    var fields :- Get(data, "fields");
    var n :- Len(fields);
    var pairs :- FieldPairs(data, fields, n, 0);
    Ok(Collect(pairs))
  }

  /**
   * The i-th field name maps to the i-th value of the first row (the last
   * such field wins); no field, whatever the container, gives no property.
   */
  lemma WebsiteMapContents(data: Py, fields: seq<Py>, i: nat)
    requires FieldPairs(data, PList(fields), |fields|, 0).Ok?
    requires i < |fields|
    ensures Get(data, "rows").Ok? && At(Get(data, "rows").value, 0).Ok?
    ensures var pairs := FieldPairs(data, PList(fields), |fields|, 0).value;
      var first := At(Get(data, "rows").value, 0).value;
      Get(fields[i], "name") == Ok(pairs[i].0)
      && ((forall j | i < j < |fields| :: Get(fields[j], "name") != Get(fields[i], "name"))
          ==> pairs[i].0 in Collect(pairs) && Ok(Collect(pairs)[pairs[i].0]) == At(first, i))
  {
    var pairs := FieldPairs(data, PList(fields), |fields|, 0).value;
    assert FieldAt(data, PList(fields), i) == Ok(pairs[i]);
    if forall j | i < j < |fields| :: Get(fields[j], "name") != Get(fields[i], "name") {
      forall j | i < j < |pairs| ensures pairs[j].0 != pairs[i].0 {
        assert FieldAt(data, PList(fields), j) == Ok(pairs[j]);
        assert Get(fields[j], "name") == Ok(pairs[j].0);
      }
      CollectLastWins(pairs, i);
    }
  }

  /** `get_website_by_name`: TypeError before any request for a non-string website. */
  function GetWebsiteByName(c: Conn, websiteName: Py, replies: seq<Reply>): (o: Outcome<map<Py, Py>>)
    ensures !websiteName.PStr? ==> o.result.Fail? && o.result.error.kind == TypeError && o.trace == []
    ensures |o.rest| <= |replies|
  {
    if !websiteName.PStr? then Outcome(Raise(TypeError, "website_name should be a string"), [], replies)
    else
      var url := c.apiV2 + "/ea/" + websiteName.s + "/db/website/get_me.json";
      var call := JsonRequest.Call(PStr("get"), PStr(url), c.headers, PNone, PNone, replies);
      match call.result
      case Fail(e) => Outcome(Fail(e), call.trace, call.rest)
      case Ok(j) => Outcome(WebsiteMap(j), call.trace, call.rest)
  }
}
