/** `PyUntisSession`: the JSON-RPC client of the WebUntis API. The session keeps
    a request counter and the server name; the HTTP round trip itself is not
    modelled, so each call takes the server's decoded response as an input. */
module UntisSession {
  import opened Json
  import opened UntisClasses

  const ClientId := "UntisMobileiOS"
  const UserAgent := "Untis/2.5.2 (at.grupet.mobile.um; build:1; iOS 13.0.0) Alamofire/4.8.1"
  const DefaultFields := List([Str("id"), Str("name"), Str("longname")])
  const DefaultKeyType := Str("id")

  // ---------------------------------------------------------------------------
  // Requests

  /** `{k: v for k, v in params.items() if v is not None}`. */
  function Filtered(params: map<string, Json>): (kept: map<string, Json>)
    ensures forall k :: k in kept <==> k in params && params[k] != Null
  {
    map k | k in params && params[k] != Null :: params[k]
  }

  /** The request object `_build_payload` returns. The `id` member is always the
      client name, never the counter. */
  function Payload(name: string, wrapParams: bool, params: map<string, Json>): map<string, Json> {
    var kept := Filtered(params);
    var base := map["method" := Str(name), "id" := Str(ClientId), "jsonrpc" := Str("2.0")];
    if kept != map[] then base["params" := if wrapParams then List([Object(kept)]) else Object(kept)]
    else base
  }

  /** A request object as section 4 of the JSON-RPC 2.0 Specification defines
      it: `jsonrpc` is exactly "2.0", `method` is a string, `params`, when
      present, is a structured value (an array or an object, section 4.2), and
      `id`, when present, is a string, a number or null. */
  predicate IsRequest(p: map<string, Json>) {
    p.Keys <= {"jsonrpc", "method", "params", "id"}
    && "jsonrpc" in p && p["jsonrpc"] == Str("2.0")
    && "method" in p && p["method"].Str?
    && ("params" in p ==> p["params"].List? || p["params"].Object?)
    && ("id" in p ==> p["id"].Str? || p["id"].Int? || p["id"].Null?)
  }

  /** Every payload is a JSON-RPC request that names the method and carries the
      client name as its id. Its params are the given ones without the None
      values, unchanged: present exactly when one is left, by position (a
      one-element array holding the object) when asked for and by name
      otherwise. */
  lemma PayloadIsRequest(name: string, wrapParams: bool, params: map<string, Json>)
    ensures var p := Payload(name, wrapParams, params);
      IsRequest(p) && p["method"] == Str(name) && p["id"] == Str(ClientId)
      && ("params" in p <==> exists k | k in params :: params[k] != Null)
      && ("params" in p ==> p["params"] == if wrapParams then List([Object(Filtered(params))]) else Object(Filtered(params)))
  {
    var kept := Filtered(params);
    if exists k | k in params :: params[k] != Null {
      var k :| k in params && params[k] != Null;
      assert k in kept;
    } else {
      assert kept == map[];
    }
  }

  /** The params object keeps every non-None value under its own name. */
  lemma FilteredKeepsValues(params: map<string, Json>, k: string)
    requires k in params && params[k] != Null
    ensures k in Filtered(params) && Filtered(params)[k] == params[k]
  {
  }

  // ---------------------------------------------------------------------------
  // Responses

  /** `needle` occurs in `hay` starting at index `i`. */
  predicate OccursAt(hay: string, needle: string, i: int) {
    0 <= i <= |hay| - |needle| && hay[i..i + |needle|] == needle
  }

  /** `needle in hay` for strings. */
  predicate Contains(hay: string, needle: string) {
    exists i | 0 <= i <= |hay| - |needle| :: OccursAt(hay, needle, i)
  }

  /** The dispatch at the end of `_post`: `"error" in response` gives the empty
      list, else `"result" in response` gives `response["result"]`, else None.
      `in` looks at a dict's keys, a list's elements and a string's substrings;
      subscripting a list or a string with "result" and `in` on a number, a
      boolean or None raise TypeError. */
  function Dispatch(response: Json): Result<Json> {
    match response
    case Object(fields) =>
      if "error" in fields then Ok(List([]))
      else if "result" in fields then Ok(fields["result"])
      else Ok(Null)
    case List(items) =>
      if Str("error") in items then Ok(List([]))
      else if Str("result") in items then Err(TypeError)
      else Ok(Null)
    case Str(s) =>
      if Contains(s, "error") then Ok(List([]))
      else if Contains(s, "result") then Err(TypeError)
      else Ok(Null)
    case _ => Err(TypeError)
  }

  /** A response object as section 5 of the JSON-RPC 2.0 Specification defines
      it: `jsonrpc` is "2.0", an `id` is present, and exactly one of `result`
      and `error` is. */
  predicate IsResponse(response: Json) {
    response.Object? && "jsonrpc" in response.fields && response.fields["jsonrpc"] == Str("2.0")
    && "id" in response.fields && ("result" in response.fields <==> "error" !in response.fields)
  }

  /** For a well-formed response the dispatch never fails: an error becomes the
      empty list and a success its result. */
  lemma DispatchOfResponse(response: Json)
    requires IsResponse(response)
    ensures Dispatch(response).Ok?
    ensures "error" in response.fields ==> Dispatch(response) == Ok(List([]))
    ensures "result" in response.fields ==> Dispatch(response) == Ok(response.fields["result"])
  {
  }

  /** An error response cannot be told apart from a successful empty list, so
      no caller can see an error code such as -8509. */
  lemma ErrorLooksLikeEmptyResult(id: Json, error: Json)
    ensures var failed := Object(map["jsonrpc" := Str("2.0"), "id" := id, "error" := error]);
      var empty := Object(map["jsonrpc" := Str("2.0"), "id" := id, "result" := List([])]);
      IsResponse(failed) && IsResponse(empty) && Dispatch(failed) == Dispatch(empty)
  {
  }

  /** A response that is neither kind gives None. */
  lemma UnknownResponseIsNone(response: Json)
    requires response.Object? && "error" !in response.fields && "result" !in response.fields
    ensures Dispatch(response) == Ok(Null)
  {
  }

  /** `JSON_API_FORMAT.format(servername, "?" + urlencode(url_params) if
      url_params else "")`; `urlencode` is the standard library's. */
  function ApiUrl(servername: string, urlParams: map<string, Json>, urlencode: map<string, Json> -> string): (url: string)
  {
    "https://" + servername + "/WebUntis/jsonrpc.do" + (if urlParams != map[] then "?" + urlencode(urlParams) else "")
  }

  /** The endpoint is the server's JSON-RPC path, followed by a query only when
      URL parameters are given. */
  lemma ApiUrlShape(servername: string, urlParams: map<string, Json>, urlencode: map<string, Json> -> string)
    ensures var base := "https://" + servername + "/WebUntis/jsonrpc.do";
      var url := ApiUrl(servername, urlParams, urlencode);
      |base| <= |url| && url[..|base|] == base
      && (urlParams == map[] <==> url == base)
      && (urlParams != map[] ==> url[|base|..] == "?" + urlencode(urlParams))
  {
    var base := "https://" + servername + "/WebUntis/jsonrpc.do";
    var url := ApiUrl(servername, urlParams, urlencode);
    if urlParams != map[] {
      assert |url| > |base|;
    }
  }

  // ---------------------------------------------------------------------------
  // getTimetableCustom

  /** The `options` object of `getTimetableCustom`. `fields` is taken from the
      extra params whenever the name is given, even as None; the fixed members
      come first and the non-None extra params are merged over them. */
  function TimetableOptions(id: Json, elementType: Json, startDate: Json, endDate: Json, keyType: Json,
                            params: map<string, Json>): map<string, Json>
  {
    var fields := if "fields" in params then params["fields"] else DefaultFields;
    var element := Object(map["id" := id, "type" := elementType, "keyType" := keyType]);
    map["element" := element, "startDate" := startDate, "endDate" := endDate,
        "klasseFields" := fields, "roomFields" := fields, "subjectFields" := fields, "teacherFields" := fields]
      + Filtered(params)
  }

  const FixedOptions := {"element", "startDate", "endDate", "klasseFields", "roomFields", "subjectFields", "teacherFields"}

  /** A non-None extra param always wins; a fixed member not overridden keeps
      its value, the four field lists sharing `fields` (by default id, name and
      long name); nothing else appears. */
  lemma TimetableOptionsMembers(id: Json, elementType: Json, startDate: Json, endDate: Json, keyType: Json,
                                params: map<string, Json>, k: string)
    ensures var o := TimetableOptions(id, elementType, startDate, endDate, keyType, params);
      var fields := if "fields" in params then params["fields"] else DefaultFields;
      o.Keys == FixedOptions + Filtered(params).Keys
      && (k in params && params[k] != Null ==> o[k] == params[k])
      && (k in FixedOptions && (k !in params || params[k] == Null) ==>
            o[k] == match k
              case "element" => Object(map["id" := id, "type" := elementType, "keyType" := keyType])
              case "startDate" => startDate
              case "endDate" => endDate
              case _ => fields)
  {
  }

  /** Without extra params, the element, the dates and the default field lists
      are all there is. */
  lemma PlainTimetableOptions(id: Json, elementType: Json, startDate: Json, endDate: Json)
    ensures TimetableOptions(id, elementType, startDate, endDate, DefaultKeyType, map[])
      == map["element" := Object(map["id" := id, "type" := elementType, "keyType" := Str("id")]),
             "startDate" := startDate, "endDate" := endDate,
             "klasseFields" := DefaultFields, "roomFields" := DefaultFields,
             "subjectFields" := DefaultFields, "teacherFields" := DefaultFields]
  {
    assert Filtered(map[]) == map[];
  }

  // ---------------------------------------------------------------------------
  // The session object

  class Session {
    var servername: string
    var requestID: int

    constructor()
      ensures servername == "" && requestID == 0
    {
      servername := "";
      requestID := 0;
    }

    /** `_build_payload`: counts the request and builds its payload. */
    method BuildPayload(name: string, wrapParams: bool, params: map<string, Json>) returns (payload: map<string, Json>)
      modifies this
      ensures requestID == old(requestID) + 1 && servername == old(servername)
      ensures payload == Payload(name, wrapParams, params)
    {
      requestID := requestID + 1;
      var kept := Filtered(params);
      payload := map["method" := Str(name), "id" := Str(ClientId), "jsonrpc" := Str("2.0")];
      if kept != map[] {
        payload := payload["params" := if wrapParams then List([Object(kept)]) else Object(kept)];
      }
    }

    /** `_post`: the URL the payload goes to and what becomes of the server's
        decoded `response`. */
    method Post(urlParams: map<string, Json>, urlencode: map<string, Json> -> string, response: Json)
      returns (url: string, res: Result<Json>)
      ensures url == ApiUrl(servername, urlParams, urlencode)
      ensures res == Dispatch(response)
    {
      url := "https://" + servername + "/WebUntis/jsonrpc.do";
      if urlParams != map[] {
        url := url + "?" + urlencode(urlParams);
      }
      res := Dispatch(response);
    }

    /** `authenticate`: remembers the school's server, then logs in with the
        user's name and password at `?school=<login name>`. */
    method Authenticate(school: School, user: Json, password: Json, urlencode: map<string, Json> -> string,
                        response: Json) returns (payload: map<string, Json>, url: string, res: Result<AuthResult>)
      requires school.server.Str?
      modifies this
      ensures servername == school.server.s && requestID == old(requestID) + 1
      ensures payload == Payload("authenticate", false,
                                 map["user" := user, "password" := password, "client" := Str(UserAgent)])
      ensures url == ApiUrl(school.server.s, map["school" := school.loginName], urlencode)
      ensures res == (var r :- Dispatch(response); NewAuthResult(r))
    {
      servername := school.server.s;
      payload := BuildPayload("authenticate", false, map["user" := user, "password" := password, "client" := Str(UserAgent)]);
      var answer;
      url, answer := Post(map["school" := school.loginName], urlencode, response);
      if answer.Err? {
        return payload, url, Err(answer.error);
      }
      res := NewAuthResult(answer.value);
    }

    /** `getTimetableCustom`: one `getTimetable` request carrying the options
        object, and the lessons parsed from the answer. */
    method GetTimetableCustom(id: Json, elementType: Json, startDate: Json, endDate: Json, keyType: Json,
                              params: map<string, Json>, urlencode: map<string, Json> -> string, response: Json)
      returns (payload: map<string, Json>, res: Result<seq<TimetableEntry>>)
      modifies this
      ensures requestID == old(requestID) + 1 && servername == old(servername)
      ensures payload == Payload("getTimetable", false,
                                 map["options" := Object(TimetableOptions(id, elementType, startDate, endDate, keyType, params))])
      ensures res == (var r :- Dispatch(response); ParseAll(r, NewTimetableEntry))
    {
      var options := TimetableOptions(id, elementType, startDate, endDate, keyType, params);
      payload := BuildPayload("getTimetable", false, map["options" := Object(options)]);
      var url, answer := Post(map[], urlencode, response);
      if answer.Err? {
        return payload, Err(answer.error);
      }
      res := ParseAll(answer.value, NewTimetableEntry);
    }
  }

  /** The request sent for a class timetable always has by-name params holding
      just the options object. */
  lemma TimetableRequestShape(id: Json, elementType: Json, startDate: Json, endDate: Json, keyType: Json,
                              params: map<string, Json>)
    ensures var o := TimetableOptions(id, elementType, startDate, endDate, keyType, params);
      var p := Payload("getTimetable", false, map["options" := Object(o)]);
      IsRequest(p) && "params" in p && p["params"] == Object(map["options" := Object(o)])
  {
    var o := TimetableOptions(id, elementType, startDate, endDate, keyType, params);
    var ps := map["options" := Object(o)];
    PayloadIsRequest("getTimetable", false, ps);
    assert "options" in ps && ps["options"] != Null;
    assert Filtered(ps) == ps;
  }
}
