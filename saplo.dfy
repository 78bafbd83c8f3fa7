/** The JSON-RPC 2.0 client of the Saplo text-analysis service: the `SaploAPI` session
    (endpoint, access token, last request text), the request envelope it builds, the
    interpretation of the server's reply, `SaploException`, and the four resource
    namespaces Account, Collection, Text and Group, each bound to one session.

    `json_encode`/`json_decode` are given to a session as a `Codec`; the HTTPS transport
    answers each POST with an arbitrary reply, and every exchange is recorded. */
module Saplo {
  import opened PhpValues

  /** The service address a session uses unless its constructor is given another. */
  const DefaultEndpoint: string := "https://api.saplo.com/rpc/json"

  /** Parameter keys that steer the client and are removed before a request is sent. */
  const Directives: set<string> := {"request_id", "trim"}

  /** `json_encode`, None where it fails (PHP returns `false`), and
      `json_decode($text, true)`. */
  datatype Codec = Codec(encode: Json -> Option<string>, decode: string -> Json)

  /** A `SaploException`: the server's message and code, and the session's last request
      text as PHP holds it (`getJSONRequest`): null, a string, or `false`. */
  datatype SaploException = SaploException(message: Json, code: Json, jsonRequest: Json)

  /** How a PHP call ends: it returns a value, throws a SaploException, or stops because
      `Exception::__construct` refused the message or code it was given (a fatal error in
      PHP 5, a thrown `Error` from PHP 7); no SaploException exists then. */
  datatype Outcome = Return(value: Json) | Throw(exception: SaploException) | Crash

  datatype Result<+T, +E> = Success(value: T) | Failure(error: E)

  /** One HTTPS POST: the URL, the body sent, and the reply (None when curl fails). */
  datatype Exchange = Exchange(url: string, body: string, response: Option<string>)

  /** PHP's `empty` on a string argument. */
  predicate Empty(s: string): (b: bool)
    ensures b <==> |s| <= 1 && forall i :: 0 <= i < |s| ==> s[i] == '0'
  {
    s == "" || s == "0"
  }

  /** The `params` member of a request: the caller's params with `request_id` and `trim`
      taken out where they are set; a key whose value is null is not set, and stays. */
  function ForwardedParams(params: Json): (p: Json)
    ensures !IsSet(p, "request_id") && !IsSet(p, "trim")
    ensures p.Obj? == params.Obj?
    ensures params.Obj? ==>
      p.fields.Keys == params.fields.Keys - (set k | k in Directives && IsSet(params, k))
    ensures params.Obj? ==> forall k :: k in p.fields ==> p.fields[k] == params.fields[k]
    ensures !params.Obj? ==> p == params
  {
    assert !IsDigit("request_id"[0]) && !IsDigit("trim"[0]);
    if params.Obj? then
      Obj(map k | k in params.fields && !(k in Directives && params.fields[k] != Null) :: params.fields[k])
    else
      params
  }

  /** The `id` member of a request: the caller's `request_id` when set, 0 otherwise. */
  function RequestId(params: Json): (id: Json)
    ensures id != Null
    ensures IsSet(params, "request_id") ==> id == Index(params, "request_id")
    ensures !IsSet(params, "request_id") ==> id == Num(0)
  {
    if IsSet(params, "request_id") then Index(params, "request_id") else Num(0)
  }

  /** The JSON-RPC 2.0 request object sent for a call of `name` with `params`. */
  function Envelope(name: string, params: Json): (e: Json)
    ensures e.Obj? && e.fields.Keys == {"method", "params", "id", "jsonrpc"}
    ensures e.fields["jsonrpc"] == Str("2.0") && e.fields["method"] == Str(name)
    ensures !IsSet(e.fields["params"], "request_id") && !IsSet(e.fields["params"], "trim")
  {
    Obj(map[
      "method" := Str(name),
      "params" := ForwardedParams(params),
      "id" := RequestId(params),
      "jsonrpc" := Str("2.0")])
  }

  /** A request object as section 4 of the JSON-RPC 2.0 specification describes it: the
      four members, `jsonrpc` exactly "2.0", a String `method`, structured `params`, and an
      `id` that is a String, a Number or Null. */
  predicate IsRpcRequest(e: Json) {
    && e.Obj?
    && e.fields.Keys == {"method", "params", "id", "jsonrpc"}
    && e.fields["jsonrpc"] == Str("2.0")
    && e.fields["method"].Str?
    && (e.fields["params"].Obj? || e.fields["params"].Arr?)
    && (e.fields["id"].Str? || e.fields["id"].Num? || e.fields["id"].Null?)
  }

  /** The address of every POST: the endpoint, with the token as query parameter. */
  function PostUrl(endpoint: string, token: Json): (u: string)
    ensures |u| == |endpoint| + 14 + |StringOf(token)|
    ensures u[..|endpoint|] == endpoint && u[|endpoint|..|endpoint| + 14] == "?access_token="
    ensures u[|endpoint| + 14..] == StringOf(token)
    ensures token == Null ==> u == endpoint + "?access_token="
  {
    endpoint + "?access_token=" + StringOf(token)
  }

  /** The value `json_encode($e)` yields: the text, or `false` when encoding fails. */
  function Encoded(codec: Codec, e: Json): (v: Json)
    ensures v.Str? <==> codec.encode(e).Some?
    ensures !v.Str? ==> v == Bool(false) && StringOf(v) == ""
    ensures v.Str? ==> StringOf(v) == codec.encode(e).value
  {
    match codec.encode(e)
    case Some(t) => Str(t)
    case None => Bool(false)
  }

  /** The params of the bootstrap call `auth.accessToken`. */
  function Credentials(apiKey: Json, secretKey: Json): (c: Json)
    ensures c.Obj? && c.fields.Keys == {"api_key", "secret_key"}
    ensures Index(c, "api_key") == apiKey && Index(c, "secret_key") == secretKey
    ensures !IsSet(c, "request_id") && !IsSet(c, "trim")
  {
    Obj(map["api_key" := apiKey, "secret_key" := secretKey])
  }

  lemma EnvelopeIsRpcRequest(name: string, params: Json)
    requires params.Obj? || params.Arr?
    requires !IsSet(params, "request_id") || Index(params, "request_id").Str? || Index(params, "request_id").Num?
    ensures IsRpcRequest(Envelope(name, params))
    ensures Envelope(name, params).fields["method"] == Str(name)
    ensures Envelope(name, params).fields["params"] == ForwardedParams(params)
  {
  }

  lemma EnvelopeId(name: string, params: Json)
    ensures IsSet(params, "request_id") ==> Envelope(name, params).fields["id"] == Index(params, "request_id")
    ensures !IsSet(params, "request_id") ==> Envelope(name, params).fields["id"] == Num(0)
  {
  }

  /** The bootstrap request carries exactly the two keys, with id 0. */
  lemma BootstrapEnvelope(apiKey: Json, secretKey: Json)
    ensures Envelope("auth.accessToken", Credentials(apiKey, secretKey)) ==
      Obj(map[
        "method" := Str("auth.accessToken"),
        "params" := Credentials(apiKey, secretKey),
        "id" := Num(0),
        "jsonrpc" := Str("2.0")])
  {
    var c := Credentials(apiKey, secretKey);
    assert !IsSet(c, "request_id") && !IsSet(c, "trim");
    assert ForwardedParams(c).fields == c.fields;
  }

  /** Whether `new SaploException($msg, $code, ...)` gets past its call of the parent
      `Exception` constructor, which takes a string message and an integer code. */
  predicate ExceptionAccepts(message: Json, code: Json): (b: bool)
    ensures message.Arr? || message.Obj? ==> !b
    ensures code.Str? && b ==> exists i :: 0 <= i < |code.s| && IsDigit(code.s[i])
    ensures (message.Str? || message.Null?) && (code.Num? || code.Null?) ==> b
  {
    ConvertsToString(message) && ConvertsToInteger(code)
  }

  /** An error code the server writes as a word stops the client; a numeric one, even
      behind blanks, and a missing one do not. */
  lemma ErrorCodeExamples()
    ensures !ExceptionAccepts(Str("bad token"), Str("E401"))
    ensures ExceptionAccepts(Str("bad token"), Str(" 401"))
    ensures ExceptionAccepts(Null, Null)
    ensures !ExceptionAccepts(Obj(map[]), Num(401))
  {
    assert !IsBlank('E') && SkipBlanks("E401") == "E401";
    assert !LeadingNumeric("E401");
    assert IsBlank(' ') && " 401"[1..] == "401";
    assert !IsBlank('4') && SkipBlanks("401") == "401";
    assert SkipBlanks(" 401") == "401";
    assert LeadingNumeric(" 401");
  }

  class SaploApi {
    var endpoint: string
    var token: Json
    var jsonRequest: Json
    const codec: Codec
    /** Every HTTPS exchange this session has made, oldest first. */
    ghost var exchanges: seq<Exchange>
    var text: Text?
    var collection: Collection?
    var account: Account?
    var group: Group?

    /** The field set-up of `__construct`, before its bootstrap call. */
    constructor Init(endpoint: string, codec: Codec)
      ensures this.endpoint == if Empty(endpoint) then DefaultEndpoint else endpoint
      ensures token == Null && jsonRequest == Null && exchanges == [] && this.codec == codec
      ensures text == null && collection == null && account == null && group == null
    {
      this.endpoint := if Empty(endpoint) then DefaultEndpoint else endpoint;
      token := Null;
      jsonRequest := Null;
      this.codec := codec;
      exchanges := [];
      text, collection, account, group := null, null, null, null;
    }

    /** `new SaploAPI($api_key, $secret_key, $endpoint)`: set the endpoint, call
        `auth.accessToken` with the key pair and keep the token it returns, then bind the
        four namespaces. A thrown exception leaves no session to the caller; `api` is that
        session's state all the same. */
    static method Connect(codec: Codec, apiKey: Json, secretKey: Json, endpoint: string := "")
      returns (r: Result<SaploApi, Outcome>, ghost api: SaploApi)
      ensures fresh(api) && api.codec == codec
      ensures api.endpoint == if Empty(endpoint) then DefaultEndpoint else endpoint
      ensures |api.exchanges| == 1
      ensures api.exchanges[0].url == api.endpoint + "?access_token="
      ensures api.jsonRequest == Encoded(codec, Envelope("auth.accessToken", Credentials(apiKey, secretKey)))
      ensures api.exchanges[0].body == StringOf(api.jsonRequest)
      ensures
        var outcome := api.ParseResponse(api.exchanges[0].response, Credentials(apiKey, secretKey));
        && (!outcome.Return? ==> r == Failure(outcome) && api.token == Null)
        && (outcome.Return? ==> r == Success(api) && api.token == Index(outcome.value, "access_token"))
      ensures r.Success? ==>
        && api.text != null && fresh(api.text) && api.text.api == api
        && api.collection != null && fresh(api.collection) && api.collection.api == api
        && api.account != null && fresh(api.account) && api.account.api == api
        && api.group != null && fresh(api.group) && api.group.api == api
    {
      var s := new SaploApi.Init(endpoint, codec);
      api := s;
      var params := Credentials(apiKey, secretKey);
      var outcome := s.AccessToken(params);
      if !outcome.Return? {
        r := Failure(outcome);
      } else {
        s.BindNamespaces();
        r := Success(s);
      }
    }

    /** The last four assignments of `__construct`: a fresh namespace of each kind, bound
        to this session. */
    method BindNamespaces()
      modifies this`text, this`collection, this`account, this`group
      ensures text != null && fresh(text) && text.api == this
      ensures collection != null && fresh(collection) && collection.api == this
      ensures account != null && fresh(account) && account.api == this
      ensures group != null && fresh(group) && group.api == this
    {
      text := new Text(this);
      collection := new Collection(this);
      account := new Account(this);
      group := new Group(this);
    }

    /** The JSON-RPC call `name(params)` was just sent: the encoded envelope is the last
        request text, and one more exchange went to the endpoint with the token of the time,
        carrying that text (an empty body when encoding failed). */
    twostate predicate Requested(name: string, params: Json)
      reads this
    {
      && endpoint == old(endpoint)
      && |exchanges| == |old(exchanges)| + 1
      && exchanges[..|old(exchanges)|] == old(exchanges)
      && exchanges[|old(exchanges)|].url == PostUrl(old(endpoint), old(token))
      && jsonRequest == Encoded(codec, Envelope(name, params))
      && exchanges[|old(exchanges)|].body == StringOf(jsonRequest)
    }

    ghost function LastExchange(): Exchange
      reads this
      requires exchanges != []
    {
      exchanges[|exchanges| - 1]
    }

    /** A namespace method's effect: `name(params)` was sent, the token is unchanged, and
        `r` is the reply interpreted against `parseParams`. */
    twostate predicate Delegated(name: string, params: Json, parseParams: Json, r: Outcome)
      reads this
    {
      && Requested(name, params)
      && token == old(token)
      && r == ParseResponse(LastExchange().response, parseParams)
    }

    /** The exception a namespace call throws carries the session's last request text,
        and that text is exactly what was posted. */
    twostate lemma ThrownCarriesSentRequest(name: string, params: Json, parseParams: Json, r: Outcome)
      requires Delegated(name, params, parseParams, r)
      ensures r.Throw? ==> r.exception.jsonRequest == Encoded(codec, Envelope(name, params))
      ensures r.Throw? ==> StringOf(r.exception.jsonRequest) == LastExchange().body
    {
    }

    method AccessToken(params: Json) returns (r: Outcome)
      modifies this`token, this`jsonRequest, this`exchanges
      ensures Requested("auth.accessToken", params)
      ensures r == ParseResponse(LastExchange().response, params)
      ensures r.Return? ==> token == Index(r.value, "access_token")
      ensures !r.Return? ==> token == old(token)
    {
      var response := DoRequest("auth.accessToken", params);
      r := ParseResponse(response, params);
      if r.Return? {
        token := Index(r.value, "access_token");
      }
    }

    /** `custom_request`: post a caller-built request text as it is; the reply comes back
        uninterpreted. */
    method CustomRequest(json: string) returns (response: Option<string>)
      modifies this`exchanges
      ensures exchanges == old(exchanges) + [Exchange(PostUrl(endpoint, token), json, response)]
    {
      response := Post(json);
    }

    /** `doRequest`: strip the directives from a copy of `params`, wrap it in a JSON-RPC 2.0
        request, remember its text (or `false`) and post it. */
    method DoRequest(name: string, params: Json) returns (response: Option<string>)
      modifies this`jsonRequest, this`exchanges
      ensures Requested(name, params)
      ensures response == LastExchange().response
    {
      var p := params;
      var requestId;
      if IsSet(p, "request_id") {
        requestId := Index(p, "request_id");
        p := Unset(p, "request_id");
      } else {
        requestId := Num(0);
      }
      if IsSet(p, "trim") {
        p := Unset(p, "trim");
      }
      var request := Obj(map["method" := Str(name), "params" := p, "id" := requestId, "jsonrpc" := Str("2.0")]);
      assert p == ForwardedParams(params);
      assert request == Envelope(name, params);
      var requestJson := Encoded(codec, request);
      jsonRequest := requestJson;
      // curl sends a `false` body as the empty string
      response := Post(StringOf(requestJson));
    }

    /** `post`: one HTTPS POST of `requestJson` to the endpoint, with the current token in
        the query string. The server's reply is not known in advance. */
    method Post(requestJson: string) returns (response: Option<string>)
      modifies this`exchanges
      ensures exchanges == old(exchanges) + [Exchange(PostUrl(endpoint, token), requestJson, response)]
    {
      var postUrl := PostUrl(endpoint, token);
      response := *;
      exchanges := exchanges + [Exchange(postUrl, requestJson, response)];
    }

    /** `json_decode($response, true)`; a failed transfer decodes to null. */
    function Decode(response: Option<string>): (v: Json)
      ensures response.None? ==> v == Null
      ensures response.Some? ==> v == codec.decode(response.value)
    {
      match response
      case None => Null
      case Some(t) => codec.decode(t)
    }

    /** `parseResponse`: a set `result` wins and is returned, trimmed when the params carry
        `trim`; otherwise a set `error` is thrown with its `msg`, its `code` and the last
        request text, unless `Exception` refuses that message or code; otherwise null is
        returned. */
    function ParseResponse(response: Option<string>, params: Json): (r: Outcome)
      reads this`jsonRequest
      ensures !r.Return? <==> !IsSet(Decode(response), "result") && IsSet(Decode(response), "error")
      ensures r.Crash? <==>
        && !r.Return?
        && !ExceptionAccepts(Index(Index(Decode(response), "error"), "msg"), Index(Index(Decode(response), "error"), "code"))
      ensures r.Throw? ==>
        r.exception == SaploException(
          Index(Index(Decode(response), "error"), "msg"),
          Index(Index(Decode(response), "error"), "code"),
          jsonRequest)
      ensures IsSet(Decode(response), "result") && IsSet(params, "trim") ==>
        r == Return(Trim(Index(params, "trim"), Index(Decode(response), "result")))
      ensures IsSet(Decode(response), "result") && !IsSet(params, "trim") ==>
        r == Return(Index(Decode(response), "result"))
      ensures r.Return? && r.value != Null ==> IsSet(Decode(response), "result")
    {
      var parsed := Decode(response);
      if IsSet(parsed, "result") then
        if IsSet(params, "trim") then
          Return(Trim(Index(params, "trim"), Index(parsed, "result")))
        else
          Return(Index(parsed, "result"))
      else if IsSet(parsed, "error") then
        var error := Index(parsed, "error");
        if ExceptionAccepts(Index(error, "msg"), Index(error, "code")) then
          Throw(SaploException(Index(error, "msg"), Index(error, "code"), jsonRequest))
        else
          Crash
      else
        Return(Null)
    }

    /** `trim`: the element of `array` that `param` names, or null when there is none. */
    static function Trim(param: Json, value: Json): (r: Json)
      ensures param.Str? && value.Obj? ==>
        r == if param.s in value.fields then value.fields[param.s] else Null
      ensures param.Num? && value.Arr? && 0 <= param.n < |value.items| ==> r == value.items[param.n]
      ensures param.Num? && value.Arr? && !(0 <= param.n < |value.items|) ==> r == Null
      ensures param.Arr? || param.Obj? || !(value.Obj? || value.Arr?) ==> r == Null
      ensures value.Arr? && r != Null ==>
        && ArrayKey(param).Some? && ParseIndex(ArrayKey(param).value).Some?
        && var i := ParseIndex(ArrayKey(param).value).value;
        && i < |value.items| && ArrayKey(param).value == IntText(i) && r == value.items[i]
    {
      match ArrayKey(param)
      case Some(k) =>
        if value.Arr? && Index(value, k) != Null then
          ListKey(value.items, k);
          Index(value, k)
        else
          Index(value, k)
      case None => Null
    }

    method GetAccessToken() returns (t: Json)
      ensures t == token
    {
      t := token;
    }
  }

  class Account {
    const api: SaploApi

    constructor (api: SaploApi)
      ensures this.api == api
    {
      this.api := api;
    }

    method Get(params: Json := Obj(map[])) returns (r: Outcome)
      modifies api`jsonRequest, api`exchanges
      ensures api.Delegated("account.get", params, params, r)
    {
      var response := api.DoRequest("account.get", params);
      r := api.ParseResponse(response, params);
    }
  }

  class Collection {
    const api: SaploApi

    constructor (api: SaploApi)
      ensures this.api == api
    {
      this.api := api;
    }

    method Create(params: Json) returns (r: Outcome)
      modifies api`jsonRequest, api`exchanges
      ensures api.Delegated("collection.create", params, params, r)
    {
      var response := api.DoRequest("collection.create", params);
      r := api.ParseResponse(response, params);
    }

    method Get(params: Json) returns (r: Outcome)
      modifies api`jsonRequest, api`exchanges
      ensures api.Delegated("collection.get", params, params, r)
    {
      var response := api.DoRequest("collection.get", params);
      r := api.ParseResponse(response, params);
    }

    method Update(params: Json) returns (r: Outcome)
      modifies api`jsonRequest, api`exchanges
      ensures api.Delegated("collection.update", params, params, r)
    {
      var response := api.DoRequest("collection.update", params);
      r := api.ParseResponse(response, params);
    }

    method Delete(params: Json) returns (r: Outcome)
      modifies api`jsonRequest, api`exchanges
      ensures api.Delegated("collection.delete", params, params, r)
    {
      var response := api.DoRequest("collection.delete", params);
      r := api.ParseResponse(response, params);
    }

    /** `lst`, the method behind the name `list`. */
    method Lst(params: Json := Obj(map[])) returns (r: Outcome)
      modifies api`jsonRequest, api`exchanges
      ensures api.Delegated("collection.list", params, params, r)
    {
      var response := api.DoRequest("collection.list", params);
      r := api.ParseResponse(response, params);
    }

    method Reset(params: Json) returns (r: Outcome)
      modifies api`jsonRequest, api`exchanges
      ensures api.Delegated("collection.reset", params, params, r)
    {
      var response := api.DoRequest("collection.reset", params);
      r := api.ParseResponse(response, params);
    }

    /** `__call`: a call of the undeclared name `list` becomes `lst` with the first
        argument, or an empty array when it is missing or null; other arguments are
        dropped. Any other undeclared name does nothing and returns null. */
    method Call(func: string, args: seq<Json>) returns (r: Outcome)
      modifies api`jsonRequest, api`exchanges
      ensures func == "list" ==>
        var params := if |args| > 0 && args[0] != Null then args[0] else Obj(map[]);
        api.Delegated("collection.list", params, params, r)
      ensures func != "list" ==> r == Return(Null) && unchanged(api)
    {
      if func == "list" {
        var params := if |args| > 0 && args[0] != Null then args[0] else Obj(map[]);
        r := Lst(params);
      } else {
        r := Return(Null);
      }
    }
  }

  class Text {
    const api: SaploApi

    constructor (api: SaploApi)
      ensures this.api == api
    {
      this.api := api;
    }

    method Create(params: Json) returns (r: Outcome)
      modifies api`jsonRequest, api`exchanges
      ensures api.Delegated("text.create", params, params, r)
    {
      var response := api.DoRequest("text.create", params);
      r := api.ParseResponse(response, params);
    }

    method Update(params: Json) returns (r: Outcome)
      modifies api`jsonRequest, api`exchanges
      ensures api.Delegated("text.update", params, params, r)
    {
      var response := api.DoRequest("text.update", params);
      r := api.ParseResponse(response, params);
    }

    method Get(params: Json) returns (r: Outcome)
      modifies api`jsonRequest, api`exchanges
      ensures api.Delegated("text.get", params, params, r)
    {
      var response := api.DoRequest("text.get", params);
      r := api.ParseResponse(response, params);
    }

    /** Without an argument the params are the integer 0, sent as they are. */
    method Delete(params: Json := Num(0)) returns (r: Outcome)
      modifies api`jsonRequest, api`exchanges
      ensures api.Delegated("text.delete", params, params, r)
    {
      var response := api.DoRequest("text.delete", params);
      r := api.ParseResponse(response, params);
    }

    method Tags(params: Json) returns (r: Outcome)
      modifies api`jsonRequest, api`exchanges
      ensures api.Delegated("text.tags", params, params, r)
    {
      var response := api.DoRequest("text.tags", params);
      r := api.ParseResponse(response, params);
    }

    method RelatedTexts(params: Json) returns (r: Outcome)
      modifies api`jsonRequest, api`exchanges
      ensures api.Delegated("text.relatedTexts", params, params, r)
    {
      var response := api.DoRequest("text.relatedTexts", params);
      r := api.ParseResponse(response, params);
    }

    method RelatedGroups(params: Json) returns (r: Outcome)
      modifies api`jsonRequest, api`exchanges
      ensures api.Delegated("text.relatedGroups", params, params, r)
    {
      var response := api.DoRequest("text.relatedGroups", params);
      r := api.ParseResponse(response, params);
    }
  }

  class Group {
    const api: SaploApi

    constructor (api: SaploApi)
      ensures this.api == api
    {
      this.api := api;
    }

    method Create(params: Json) returns (r: Outcome)
      modifies api`jsonRequest, api`exchanges
      ensures api.Delegated("group.create", params, params, r)
    {
      var response := api.DoRequest("group.create", params);
      r := api.ParseResponse(response, params);
    }

    method Get(params: Json) returns (r: Outcome)
      modifies api`jsonRequest, api`exchanges
      ensures api.Delegated("group.get", params, params, r)
    {
      var response := api.DoRequest("group.get", params);
      r := api.ParseResponse(response, params);
    }

    method Update(params: Json) returns (r: Outcome)
      modifies api`jsonRequest, api`exchanges
      ensures api.Delegated("group.update", params, params, r)
    {
      var response := api.DoRequest("group.update", params);
      r := api.ParseResponse(response, params);
    }

    method Reset(params: Json) returns (r: Outcome)
      modifies api`jsonRequest, api`exchanges
      ensures api.Delegated("group.reset", params, params, r)
    {
      var response := api.DoRequest("group.reset", params);
      r := api.ParseResponse(response, params);
    }

    method Delete(params: Json) returns (r: Outcome)
      modifies api`jsonRequest, api`exchanges
      ensures api.Delegated("group.delete", params, params, r)
    {
      var response := api.DoRequest("group.delete", params);
      r := api.ParseResponse(response, params);
    }

    /** `lst`, the method behind the name `list`. */
    method Lst(params: Json := Obj(map[])) returns (r: Outcome)
      modifies api`jsonRequest, api`exchanges
      ensures api.Delegated("group.list", params, params, r)
    {
      var response := api.DoRequest("group.list", params);
      r := api.ParseResponse(response, params);
    }

    /** The reply is interpreted without the params (PHP passes null for the missing
        argument), so a `trim` directive is sent nowhere and never applied. */
    method AddText(params: Json) returns (r: Outcome)
      modifies api`jsonRequest, api`exchanges
      ensures api.Delegated("group.addText", params, Null, r)
      ensures var parsed := api.Decode(api.LastExchange().response);
        IsSet(parsed, "result") ==> r == Return(Index(parsed, "result"))
    {
      var response := api.DoRequest("group.addText", params);
      r := api.ParseResponse(response, Null);
    }

    /** Like AddText, the reply is interpreted without the params. */
    method DeleteText(params: Json) returns (r: Outcome)
      modifies api`jsonRequest, api`exchanges
      ensures api.Delegated("group.deleteText", params, Null, r)
      ensures var parsed := api.Decode(api.LastExchange().response);
        IsSet(parsed, "result") ==> r == Return(Index(parsed, "result"))
    {
      var response := api.DoRequest("group.deleteText", params);
      r := api.ParseResponse(response, Null);
    }

    method ListTexts(params: Json) returns (r: Outcome)
      modifies api`jsonRequest, api`exchanges
      ensures api.Delegated("group.listTexts", params, params, r)
    {
      var response := api.DoRequest("group.listTexts", params);
      r := api.ParseResponse(response, params);
    }

    method RelatedTexts(params: Json) returns (r: Outcome)
      modifies api`jsonRequest, api`exchanges
      ensures api.Delegated("group.relatedTexts", params, params, r)
    {
      var response := api.DoRequest("group.relatedTexts", params);
      r := api.ParseResponse(response, params);
    }

    method RelatedGroups(params: Json) returns (r: Outcome)
      modifies api`jsonRequest, api`exchanges
      ensures api.Delegated("group.relatedGroups", params, params, r)
    {
      var response := api.DoRequest("group.relatedGroups", params);
      r := api.ParseResponse(response, params);
    }

    /** `__call`: as for Collection, `list` becomes `lst` with the first argument or an
        empty array (the trim argument passed along is not a parameter of `lst`). */
    method Call(func: string, args: seq<Json>) returns (r: Outcome)
      modifies api`jsonRequest, api`exchanges
      ensures func == "list" ==>
        var params := if |args| > 0 && args[0] != Null then args[0] else Obj(map[]);
        api.Delegated("group.list", params, params, r)
      ensures func != "list" ==> r == Return(Null) && unchanged(api)
    {
      if func == "list" {
        var params := if |args| > 0 && args[0] != Null then args[0] else Obj(map[]);
        r := Lst(params);
      } else {
        r := Return(Null);
      }
    }
  }
}
