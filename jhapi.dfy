/**
 * The hub's browser-side REST client: how it merges request options.
 * `update` copies the keys of one options object into another in place,
 * `ajax_defaults` builds a fresh settings object from the defaults and
 * the caller's options, and every endpoint method forces its own verb,
 * `dataType` and `data` over the caller's options before the request is
 * issued.
 *
 * JavaScript objects are `JsObject`s whose `entries` the methods rewrite.
 * The request itself (`$.ajax`) is recorded in `requests`; building and
 * escaping the URL (`url_path_join`, `encode_uri_components`) is not
 * modelled, so a request records its path as a list of segments.
 * `JSON.stringify` is a function argument.
 */
module Jhapi {
  import opened Wrappers

  /** The values the options objects hold. */
  datatype Value =
    | Null
    | Bool(b: bool)
    | Str(s: string)
    | Strs(items: seq<string>)
    | Handler(name: string)
    | Opaque(id: nat)

  type Dict = map<string, Value>

  /** A JavaScript object, which any holder of a reference can change. */
  class JsObject {
    var entries: Dict

    constructor (e: Dict)
      ensures entries == e
    {
      entries := e;
    }
  }

  /** One `$.ajax` call: the path below `<base_url>/api` and the settings. */
  datatype Request = Request(baseUrl: string, path: seq<string>, settings: Dict)

  /** `default_options`. */
  function DefaultOptions(): Dict
  {
    map["type" := Str("GET"), "contentType" := Str("application/json"), "cache" := Bool(false),
        "dataType" := Str("json"), "processData" := Bool(false), "success" := Null,
        "error" := Handler("ajax_error_dialog")]
  }

  /** The entries of `m` under the keys in `ks`. */
  function Restrict(m: Dict, ks: set<string>): (r: Dict)
    ensures r.Keys == m.Keys * ks
    ensures forall k :: k in r ==> r[k] == m[k]
  {
    map k | k in m && k in ks :: m[k]
  }

  /**
   * `update(d1, d2)`: every key of `d2` is written into `d1`, overwriting
   * what `d1` held there, and `d1` itself is returned.  The keys are
   * visited in no particular order.
   */
  method Update(d1: JsObject, d2: JsObject) returns (r: JsObject)
    modifies d1
    ensures r == d1
    ensures d1.entries == old(d1.entries) + old(d2.entries)
  {
    ghost var start := d1.entries;
    ghost var src := d2.entries;
    var todo := d2.entries.Keys;
    while todo != {}
      invariant todo <= src.Keys
      invariant d1.entries == start + Restrict(src, src.Keys - todo)
      invariant d1 != d2 ==> d2.entries == src
      decreases todo
    {
      var k :| k in todo;
      assert d2.entries[k] == src[k];
      d1.entries := d1.entries[k := d2.entries[k]];
      todo := todo - {k};
    }
    assert Restrict(src, src.Keys) == src;
    r := d1;
  }

  /** The meaning of `update`: the second object wins, and nothing else changes. */
  lemma UpdateMeaning(d1: Dict, d2: Dict)
    ensures (d1 + d2).Keys == d1.Keys + d2.Keys
    ensures forall k :: k in d2 ==> (d1 + d2)[k] == d2[k]
    ensures forall k :: k in d1 && k !in d2 ==> (d1 + d2)[k] == d1[k]
  {
  }

  /** `ajax_defaults(options)`: a fresh object, the defaults overridden by `options`. */
  method AjaxDefaults(options: JsObject) returns (d: JsObject)
    ensures fresh(d)
    ensures d.entries == DefaultOptions() + options.entries
  {
    d := new JsObject(map[]);
    var defaults := new JsObject(DefaultOptions());
    var _ := Update(d, defaults);
    var _ := Update(d, options);
  }

  /** The objects an optional options argument refers to. */
  function Objects(options: Option<JsObject>): set<object>
  {
    if options.Some? then {options.value} else {}
  }

  /** The entries of an optional options argument; a missing one is `{}`. */
  function Entries(options: Option<JsObject>): Dict
    reads Objects(options)
  {
    if options.Some? then options.value.entries else map[]
  }

  /** `options || {}`: the caller's object, or a fresh empty one. */
  method OrEmpty(options: Option<JsObject>) returns (o: JsObject)
    ensures options.Some? ==> o == options.value
    ensures options.None? ==> fresh(o)
    ensures o.entries == Entries(options)
  {
    if options.Some? {
      o := options.value;
    } else {
      o := new JsObject(map[]);
    }
  }

  /** The endpoints that force their verb and `dataType` over the caller's options. */
  datatype Endpoint =
    | StartServer | StopServer | AdminAccess | DeleteUser
    | StartLoopback | StopLoopback | SetupLoopback(apiInfo: Value)
    | GetLoopbackStatus | GetBlogStatus | GetFieldtripStatus
    | GetLoopbackCredential | GetBlogCredential
    | StartMysql | StopMysql | StartWordpress | StopWordpress
    | StartFieldtrip | StopFieldtrip

  /** The object literal each endpoint merges into the caller's options. */
  function Overrides(e: Endpoint): Dict
  {
    match e
    case StartServer => map["type" := Str("POST"), "dataType" := Null]
    case StopServer => map["type" := Str("DELETE"), "dataType" := Null]
    case AdminAccess => map["type" := Str("POST"), "dataType" := Null]
    case DeleteUser => map["type" := Str("DELETE"), "dataType" := Null]
    case StartLoopback => map["type" := Str("POST"), "dataType" := Null]
    case StopLoopback => map["type" := Str("DELETE"), "dataType" := Null]
    case SetupLoopback(apiInfo) => map["type" := Str("PUT"), "dataType" := Null, "data" := apiInfo]
    case GetLoopbackStatus => map["type" := Str("GET"), "dataType" := Null]
    case GetBlogStatus => map["type" := Str("GET"), "dataType" := Null]
    case GetFieldtripStatus => map["type" := Str("GET"), "dataType" := Null]
    case GetLoopbackCredential => map["type" := Str("GET"), "dataType" := Null, "data" := Str("credential=get")]
    case GetBlogCredential => map["type" := Str("GET"), "dataType" := Null, "data" := Str("credential=get")]
    case StartMysql => map["type" := Str("POST"), "dataType" := Null]
    case StopMysql => map["type" := Str("DELETE"), "dataType" := Null]
    case StartWordpress => map["type" := Str("POST"), "dataType" := Null]
    case StopWordpress => map["type" := Str("DELETE"), "dataType" := Null]
    case StartFieldtrip => map["type" := Str("POST"), "dataType" := Null]
    case StopFieldtrip => map["type" := Str("DELETE"), "dataType" := Null]
  }

  /** The service an endpoint addresses below `users/<user>`, if any. */
  function Service(e: Endpoint): Option<string>
  {
    match e
    case StartServer | StopServer => Some("server")
    case AdminAccess => Some("admin-access")
    case DeleteUser => None
    case StartLoopback | StopLoopback | SetupLoopback(_) | GetLoopbackStatus | GetLoopbackCredential => Some("loopback")
    case GetBlogStatus | GetBlogCredential | StartWordpress | StopWordpress => Some("wordpress")
    case GetFieldtripStatus | StartFieldtrip | StopFieldtrip => Some("fieldtrip")
    case StartMysql | StopMysql => Some("mysql")
  }

  /** The path an endpoint requests for `user`. */
  function Path(e: Endpoint, user: string): (p: seq<string>)
    ensures |p| >= 2 && p[..2] == ["users", user]
    ensures Service(e).Some? ==> p == ["users", user, Service(e).value]
  {
    if Service(e).Some? then ["users", user, Service(e).value] else ["users", user]
  }

  /** The verb the name of each endpoint method announces. */
  function Verb(e: Endpoint): string
  {
    match e
    case StartServer | StartLoopback | StartMysql | StartWordpress | StartFieldtrip | AdminAccess => "POST"
    case StopServer | StopLoopback | StopMysql | StopWordpress | StopFieldtrip | DeleteUser => "DELETE"
    case GetLoopbackStatus | GetBlogStatus | GetFieldtripStatus => "GET"
    case GetLoopbackCredential | GetBlogCredential => "GET"
    case SetupLoopback(_) => "PUT"
  }

  /** The settings sent for endpoint `e` when the caller passed `caller`. */
  function Sent(e: Endpoint, caller: Dict): Dict
  {
    DefaultOptions() + (caller + Overrides(e))
  }

  /** Every endpoint's verb wins over the caller's `type`, and `dataType` is null. */
  lemma ForcedVerb(e: Endpoint, caller: Dict)
    ensures Sent(e, caller)["type"] == Str(Verb(e))
    ensures Sent(e, caller)["dataType"] == Null
  {
  }

  /**
   * `setup_loopback` sends `apiInfo` and the credential getters send
   * `credential=get`, whatever data the caller gave; every other endpoint
   * sends the caller's data, if any.
   */
  lemma ForcedData(e: Endpoint, caller: Dict)
    ensures e.SetupLoopback? ==> Sent(e, caller)["data"] == e.apiInfo
    ensures e == GetLoopbackCredential || e == GetBlogCredential ==> Sent(e, caller)["data"] == Str("credential=get")
    ensures !e.SetupLoopback? && e != GetLoopbackCredential && e != GetBlogCredential ==>
              ("data" in Sent(e, caller) <==> "data" in caller)
              && ("data" in caller ==> Sent(e, caller)["data"] == caller["data"])
  {
  }

  /** The caller's other options are sent as given; the defaults fill the rest. */
  lemma CallerOptionsKept(e: Endpoint, caller: Dict, k: string)
    requires k != "type" && k != "dataType" && k != "data"
    ensures k in caller ==> k in Sent(e, caller) && Sent(e, caller)[k] == caller[k]
    ensures k !in caller && k in DefaultOptions() ==> k in Sent(e, caller) && Sent(e, caller)[k] == DefaultOptions()[k]
  {
  }

  /** `userinfo` after `add_users` has written the user names into it. */
  function Named(userinfo: Dict, usernames: seq<string>): Dict
  {
    userinfo["usernames" := Strs(usernames)]
  }

  /** The object literal `add_users` merges into the caller's options. */
  function AddUsersOverrides(data: Dict, stringify: Dict -> string): Dict
  {
    map["type" := Str("POST"), "dataType" := Null, "data" := Str(stringify(data))]
  }

  /** The REST client, with the `$.ajax` calls it has issued. */
  class Api {
    const baseUrl: string
    var requests: seq<Request>

    constructor (baseUrl: string)
      ensures this.baseUrl == baseUrl
      ensures requests == []
    {
      this.baseUrl := baseUrl;
      requests := [];
    }

    /**
     * `api_request(path, options)`: the request goes out with a fresh
     * settings object, so the caller's object is left as it was.
     */
    method ApiRequest(path: seq<string>, options: Option<JsObject>)
      modifies this`requests
      ensures requests == old(requests) + [Request(baseUrl, path, DefaultOptions() + Entries(options))]
    {
      var o := OrEmpty(options);
      var settings := AjaxDefaults(o);
      requests := requests + [Request(baseUrl, path, settings.entries)];
    }

    /**
     * The endpoint methods: the caller's options object (or a fresh one)
     * gets the endpoint's overrides written into it and is then requested.
     */
    method Call(e: Endpoint, user: string, options: Option<JsObject>) returns (sent: JsObject)
      modifies this`requests, Objects(options)
      ensures options.Some? ==> sent == options.value
      ensures options.None? ==> fresh(sent)
      ensures sent.entries == old(Entries(options)) + Overrides(e)
      ensures requests == old(requests) + [Request(baseUrl, Path(e, user), Sent(e, old(Entries(options))))]
    {
      sent := OrEmpty(options);
      var forced := new JsObject(Overrides(e));
      sent := Update(sent, forced);
      ApiRequest(Path(e, user), Some(sent));
    }

    /** `list_users(options)`: the options pass through unchanged. */
    method ListUsers(options: Option<JsObject>)
      modifies this`requests
      ensures requests == old(requests) + [Request(baseUrl, ["users"], DefaultOptions() + Entries(options))]
    {
      ApiRequest(["users"], options);
    }

    /** `get_user(user, options)`: the options pass through unchanged. */
    method GetUser(user: string, options: Option<JsObject>)
      modifies this`requests
      ensures requests == old(requests) + [Request(baseUrl, ["users", user], DefaultOptions() + Entries(options))]
    {
      ApiRequest(["users", user], options);
    }

    /**
     * `add_users(usernames, userinfo, options)`: `usernames` is written
     * into `userinfo` in place, and the JSON of the result becomes `data`.
     */
    method AddUsers(usernames: seq<string>, userinfo: JsObject, options: Option<JsObject>, stringify: Dict -> string)
      returns (sent: JsObject)
      modifies this`requests, userinfo, Objects(options)
      ensures options.Some? ==> sent == options.value
      ensures options.None? ==> fresh(sent)
      ensures sent != userinfo ==> userinfo.entries == Named(old(userinfo.entries), usernames)
      ensures sent.entries
                == (if sent == userinfo then Named(old(userinfo.entries), usernames) else old(Entries(options)))
                + AddUsersOverrides(Named(old(userinfo.entries), usernames), stringify)
      ensures requests == old(requests) + [Request(baseUrl, ["users"], DefaultOptions() + sent.entries)]
    {
      sent := OrEmpty(options);
      var names := new JsObject(map["usernames" := Strs(usernames)]);
      var data := Update(userinfo, names);
      assert data.entries == Named(old(userinfo.entries), usernames);
      var forced := new JsObject(AddUsersOverrides(data.entries, stringify));
      sent := Update(sent, forced);
      ApiRequest(["users"], Some(sent));
    }

    /** `edit_user(user, userinfo, options)`: PATCH with the JSON of `userinfo` as `data`. */
    method EditUser(user: string, userinfo: JsObject, options: Option<JsObject>, stringify: Dict -> string)
      returns (sent: JsObject)
      modifies this`requests, Objects(options)
      ensures options.Some? ==> sent == options.value
      ensures options.None? ==> fresh(sent)
      ensures sent.entries == old(Entries(options))
                + map["type" := Str("PATCH"), "dataType" := Null, "data" := Str(stringify(old(userinfo.entries)))]
      ensures requests == old(requests) + [Request(baseUrl, ["users", user], DefaultOptions() + sent.entries)]
    {
      sent := OrEmpty(options);
      var forced := new JsObject(map["type" := Str("PATCH"), "dataType" := Null, "data" := Str(stringify(userinfo.entries))]);
      sent := Update(sent, forced);
      ApiRequest(["users", user], Some(sent));
    }

    /**
     * `shutdown_hub(data, options)`: POST, keeping the caller's
     * `dataType`; when `data` is given its JSON becomes `data`.
     */
    method ShutdownHub(data: Option<JsObject>, options: Option<JsObject>, stringify: Dict -> string)
      returns (sent: JsObject)
      modifies this`requests, Objects(options)
      ensures options.Some? ==> sent == options.value
      ensures options.None? ==> fresh(sent)
      ensures data.None? ==> sent.entries == old(Entries(options))["type" := Str("POST")]
      ensures data.Some? && data.value != sent ==>
                sent.entries == old(Entries(options))["type" := Str("POST")]["data" := Str(stringify(old(data.value.entries)))]
      ensures data.Some? && data.value == sent ==>
                sent.entries == old(Entries(options))["type" := Str("POST")]
                                  ["data" := Str(stringify(old(Entries(options))["type" := Str("POST")]))]
      ensures requests == old(requests) + [Request(baseUrl, ["shutdown"], DefaultOptions() + sent.entries)]
    {
      sent := OrEmpty(options);
      var forced := new JsObject(map["type" := Str("POST")]);
      sent := Update(sent, forced);
      assert sent.entries == old(Entries(options))["type" := Str("POST")];
      if data.Some? {
        sent.entries := sent.entries["data" := Str(stringify(data.value.entries))];
      }
      ApiRequest(["shutdown"], Some(sent));
    }
  }
}
