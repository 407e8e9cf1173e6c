/** The read/update API handler: one request event in, one response out.
    It resolves the request method and path, then tries its routes in a
    fixed order: GET list, PUT location update, OPTIONS preflight, and
    otherwise 404. Anything thrown on the way becomes a 500 response. The
    routing is pure; the two routes that reach the table go through the
    shared `Store`. */
module Api {
  import opened Common
  import opened Table

  /** `event.requestContext.http` when the request context carries one;
      `verb` is its `method` member. */
  datatype Http = Http(verb: Option<string>, path: Option<string>)

  /** What `JSON.parse(event.body)` sees: a missing body and text that is not
      JSON both make it throw. */
  datatype Payload = Unparsable | Parsed(value: Json)

  /** The fields of the incoming event the handler reads. `http` is absent
      when either `requestContext` or its `http` member is. */
  datatype Event = Event(httpMethod: Option<string>, path: Option<string>, http: Option<Http>, body: Payload)

  /** What the chosen route will do once the table is reached. */
  datatype Action =
    | ListAll
    | SetLocation(id: string, changes: map<Attr, Option<Json>>)
    | Preflight
    | NoRoute

  /** The response body before `JSON.stringify`: none, the scanned items,
      the updated item, or an object with a message and perhaps an error. */
  datatype Body =
    | NoBody
    | Listing(items: map<string, Item>)
    | Record(item: Item)
    | Reply(message: string, error: Option<Fault>)

  datatype Response = Response(statusCode: int, headers: map<string, string>, body: Body)

  /** The table, the effect journal and the response after one request. */
  datatype Served = Served(table: map<string, Item>, journal: seq<Effect>, response: Response)

  /** The permissive CORS headers and content type every response carries. */
  const Headers: map<string, string> := map[
    "Access-Control-Allow-Origin" := "*",
    "Access-Control-Allow-Methods" := "GET, POST, PUT, DELETE, OPTIONS",
    "Access-Control-Allow-Headers" := "Content-Type,X-Amz-Date,Authorization,X-Api-Key,X-Amz-Security-Token",
    "Content-Type" := "application/json"
  ]

  /** The catch block's response to an error. */
  function Failed(f: Fault): Response {
    Response(500, Headers, Reply("Internal Server Error", Some(f)))
  }

  /** A value `||` keeps: present and not the empty string. */
  predicate Truthy(v: Option<string>) {
    v.Some? && v.value != ""
  }

  /** `event.httpMethod || event.requestContext.http.method`. */
  function MethodOf(ev: Event): Result<Option<string>> {
    if Truthy(ev.httpMethod) then Ok(ev.httpMethod)
    else if ev.http.None? then Err(PropertyOfUndefined)
    else Ok(ev.http.value.verb)
  }

  /** `event.path || event.requestContext.http.path`. */
  function PathOf(ev: Event): Result<Option<string>> {
    if Truthy(ev.path) then Ok(ev.path)
    else if ev.http.None? then Err(PropertyOfUndefined)
    else Ok(ev.http.value.path)
  }

  /** A character of the class `[\w-]`. */
  predicate IsWordChar(c: char) {
    'a' <= c <= 'z' || 'A' <= c <= 'Z' || '0' <= c <= '9' || c == '_' || c == '-'
  }

  const Prefix: string := "/sinkholes/"

  /** The pattern `\/sinkholes\/[\w-]+` matches at the start of `p`. */
  predicate MatchesAt(p: string) {
    |Prefix| < |p| && p[..|Prefix|] == Prefix && IsWordChar(p[|Prefix|])
  }

  /** `path.match(/\/sinkholes\/[\w-]+/)` is truthy: the unanchored pattern
      matches somewhere, trying each start position from the left. */
  predicate RouteMatches(p: string)
    decreases |p|
  {
    MatchesAt(p) || (p != [] && RouteMatches(p[1..]))
  }

  lemma {:induction false} RouteMatchesIff(p: string)
    ensures RouteMatches(p) <==> exists i :: 0 <= i <= |p| && MatchesAt(p[i..])
    decreases |p|
  {
    if MatchesAt(p) {
      assert p[0..] == p;
    } else if p != [] {
      RouteMatchesIff(p[1..]);
      if RouteMatches(p[1..]) {
        var i :| 0 <= i <= |p| - 1 && MatchesAt(p[1..][i..]);
        assert p[1..][i..] == p[i + 1..];
      }
      if i :| 0 <= i <= |p| && MatchesAt(p[i..]) {
        assert p[0..] == p;
        assert p[1..][i - 1..] == p[i..];
      }
    }
  }

  /** `path.split('/').pop()`: the text after the last '/', or the whole
      path when it has none. */
  function LastSegment(s: string): string
    decreases |s|
  {
    if s == [] || s[|s| - 1] == '/' then [] else LastSegment(s[..|s| - 1]) + [s[|s| - 1]]
  }

  /** The id holds no '/', ends the path, and is either the whole path or
      preceded by a '/'. */
  lemma {:induction false} LastSegmentSpec(s: string)
    ensures '/' !in LastSegment(s)
    ensures |LastSegment(s)| <= |s| && s[|s| - |LastSegment(s)|..] == LastSegment(s)
    ensures |LastSegment(s)| < |s| ==> s[|s| - |LastSegment(s)| - 1] == '/'
    decreases |s|
  {
    if s != [] && s[|s| - 1] != '/' {
      var init := s[..|s| - 1];
      var last := s[|s| - 1];
      LastSegmentSpec(init);
      var pre := LastSegment(init);
      var id := LastSegment(s);
      assert id == pre + [last];
      assert s == init + [last];
      assert |id| == |pre| + 1;
      assert s[|s| - |id|..] == init[|init| - |pre|..] + [last];
      if |id| < |s| {
        assert s[|s| - |id| - 1] == init[|init| - |pre| - 1];
      }
    }
  }

  /** Whatever precedes the last '/', the id is exactly what follows it. */
  lemma {:induction false} LastSegmentAfterSlash(a: string, b: string)
    requires '/' !in b
    ensures LastSegment(a + "/" + b) == b
    decreases |b|
  {
    var s := a + "/" + b;
    if b == [] {
      assert s[|s| - 1] == '/';
    } else {
      var init := b[..|b| - 1];
      assert s[..|s| - 1] == a + "/" + init;
      assert s[|s| - 1] == b[|b| - 1];
      LastSegmentAfterSlash(a, init);
      assert init + [b[|b| - 1]] == b;
    }
  }

  /** `obj.key` on a parsed body that is not null: the member of an object,
      `undefined` for any other value. */
  function Member(v: Json, key: string): Option<Json> {
    if v.JObject? && key in v.members then Some(v.members[key]) else None
  }

  /** The three values of the update, read from the parsed body:
      `body.location`, `body.lat`, `body.lng`. A null body throws. */
  function LocationFields(body: Payload): (r: Result<map<Attr, Option<Json>>>)
    ensures r.Ok? <==> body.Parsed? && body.value != JNull
    ensures body == Unparsable ==> r == Err(MalformedJson)
    ensures body == Parsed(JNull) ==> r == Err(PropertyOfUndefined)
    ensures r.Ok? ==> r.value.Keys == {Location, Lat, Lng}
    ensures r.Ok? ==> r.value[Location] == Member(body.value, "location")
    ensures r.Ok? ==> r.value[Lat] == Member(body.value, "lat")
    ensures r.Ok? ==> r.value[Lng] == Member(body.value, "lng")
  {
    match body
    case Unparsable => Err(MalformedJson)
    case Parsed(v) =>
      if v == JNull then Err(PropertyOfUndefined)
      else Ok(map[Location := Member(v, "location"), Lat := Member(v, "lat"), Lng := Member(v, "lng")])
  }

  /** The if-chain of the handler up to the table call: which route answers,
      or what is thrown before any route runs. */
  function Route(ev: Event): Result<Action> {
    match MethodOf(ev)
    case Err(f) => Err(f)
    case Ok(verb) =>
      match PathOf(ev)
      case Err(f) => Err(f)
      case Ok(path) =>
        if verb == Some("GET") && path.None? then Err(PropertyOfUndefined)
        else if verb == Some("GET") && EndsWith(path.value, "/sinkholes") then Ok(ListAll)
        else if verb == Some("PUT") && path.None? then Err(PropertyOfUndefined)
        else if verb == Some("PUT") && RouteMatches(path.value) then
          match LocationFields(ev.body)
          case Err(f) => Err(f)
          case Ok(changes) => Ok(SetLocation(LastSegment(path.value), changes))
        else if verb == Some("OPTIONS") then Ok(Preflight)
        else Ok(NoRoute)
  }

  /** One request against the table, as `Handle` performs it: a scan that may
      be rejected, an update that may be rejected, or no table access. */
  function Serve(table: map<string, Item>, journal: seq<Effect>, ev: Event, storeFails: bool): (r: Served)
    ensures r.response.headers == Headers
    ensures r.response.statusCode in {200, 404, 500}
    ensures r.response.statusCode == 500 <==> r.response.body.Reply? && r.response.body.error.Some?
    ensures r.response.statusCode == 500 ==> r.response.body.message == "Internal Server Error"
    ensures r.response.statusCode == 404 ==> r.response.body == Reply("Not Found", None)
    ensures r.response.statusCode != 200 ==> r.table == table && r.journal == journal
    ensures r.table != table || r.journal != journal ==> r.response.body.Record?
  {
    match Route(ev)
    case Err(f) => Served(table, journal, Failed(f))
    case Ok(ListAll) =>
      if storeFails then Served(table, journal, Failed(StoreReadFailed))
      else Served(table, journal, Response(200, Headers, Listing(table)))
    case Ok(SetLocation(id, changes)) =>
      if storeFails then Served(table, journal, Failed(StoreWriteFailed))
      else if id == "" || !Defined(changes) then Served(table, journal, Failed(InvalidUpdate))
      else
        var after := Updated(table, id, Values(changes));
        Served(table[id := after], journal + [UpdateItem(id, changes.Keys)], Response(200, Headers, Record(after)))
    case Ok(Preflight) => Served(table, journal, Response(200, Headers, NoBody))
    case Ok(NoRoute) => Served(table, journal, Response(404, Headers, Reply("Not Found", None)))
  }

  /** `exports.handler`: routes the event, then scans or updates the store
      when the route needs it. `storeFails` decides whether that table call
      is rejected. */
  method Handle(s: Store, ev: Event, storeFails: bool) returns (resp: Response)
    modifies s
    ensures Served(s.table, s.journal, resp) == Serve(old(s.table), old(s.journal), ev, storeFails)
  {
    var route := Route(ev);
    match route
    case Err(f) =>
      resp := Failed(f);
    case Ok(ListAll) =>
      var err, items := s.Scan(storeFails);
      if err.Some? {
        resp := Failed(err.value);
      } else {
        resp := Response(200, Headers, Listing(items));
      }
    case Ok(SetLocation(id, changes)) =>
      var err, after := s.Update(id, changes, storeFails);
      if err.Some? {
        resp := Failed(err.value);
      } else {
        resp := Response(200, Headers, Record(after));
      }
    case Ok(Preflight) =>
      resp := Response(200, Headers, NoBody);
    case Ok(NoRoute) =>
      resp := Response(404, Headers, Reply("Not Found", None));
  }

  /** A GET whose path ends with "/sinkholes" answers with every stored item
      and changes nothing, or fails with the scan's error. */
  lemma ListingReadsOnly(t: map<string, Item>, j: seq<Effect>, ev: Event, storeFails: bool, path: string)
    requires MethodOf(ev) == Ok(Some("GET")) && PathOf(ev) == Ok(Some(path))
    requires EndsWith(path, "/sinkholes")
    ensures Serve(t, j, ev, storeFails) ==
            Served(t, j, if storeFails then Failed(StoreReadFailed) else Response(200, Headers, Listing(t)))
  {
  }

  /** The method and path come from the event's own fields when they are
      non-empty, otherwise from the request context; a missing request
      context then throws, whatever the method. */
  lemma ResolutionFallsBack(t: map<string, Item>, j: seq<Effect>, ev: Event, storeFails: bool)
    requires !Truthy(ev.httpMethod) || !Truthy(ev.path)
    ensures ev.http.None? ==> Serve(t, j, ev, storeFails) == Served(t, j, Failed(PropertyOfUndefined))
    ensures ev.http.Some? && !Truthy(ev.httpMethod) ==> MethodOf(ev) == Ok(ev.http.value.verb)
    ensures ev.http.Some? && !Truthy(ev.path) ==> PathOf(ev) == Ok(ev.http.value.path)
  {
  }

  /** A PUT whose path matches targets the path's last segment and sets
      exactly location, lat and lng from the body. */
  lemma PutRoute(ev: Event, path: string, v: Json)
    requires MethodOf(ev) == Ok(Some("PUT")) && PathOf(ev) == Ok(Some(path))
    requires RouteMatches(path) && ev.body == Parsed(v) && v != JNull
    ensures Route(ev).Ok? && Route(ev).value.SetLocation?
    ensures var a := Route(ev).value;
            a.id == LastSegment(path) &&
            '/' !in a.id && EndsWith(path, a.id) &&
            a.changes.Keys == {Location, Lat, Lng} &&
            a.changes[Location] == Member(v, "location") &&
            a.changes[Lat] == Member(v, "lat") &&
            a.changes[Lng] == Member(v, "lng")
  {
    var changes := LocationFields(ev.body).value;
    assert Route(ev) == Ok(SetLocation(LastSegment(path), changes));
    LastSegmentSpec(path);
  }

  /** The update sets the three fields of the target record, keeps its other
      fields and every other record, adds no other field, answers with the
      whole updated record, and creates the record from the key and the
      named fields alone when the id is unknown. A store rejection or an
      empty id or an undefined value changes nothing and answers 500. */
  lemma ServeUpdate(t: map<string, Item>, j: seq<Effect>, ev: Event, storeFails: bool, id: string, changes: map<Attr, Option<Json>>)
    requires Route(ev) == Ok(SetLocation(id, changes))
    ensures var r := Serve(t, j, ev, storeFails);
            if storeFails then r == Served(t, j, Failed(StoreWriteFailed))
            else if id == "" || !Defined(changes) then r == Served(t, j, Failed(InvalidUpdate))
            else
              && r.table.Keys == t.Keys + {id}
              && (forall k :: k in t && k != id ==> r.table[k] == t[k])
              && r.table[id].Keys == (if id in t then t[id].Keys else {Id}) + changes.Keys
              && (forall n :: n in changes ==> n in r.table[id] && changes[n] == Some(r.table[id][n]))
              && (id in t ==> forall n :: n in t[id] && n !in changes ==> n in r.table[id] && r.table[id][n] == t[id][n])
              && (id !in t && Id !in changes ==> r.table[id][Id] == JStr(id))
              && r.response == Response(200, Headers, Record(r.table[id]))
              && r.journal == j + [UpdateItem(id, changes.Keys)]
  {
    if !storeFails && id != "" && Defined(changes) {
      UpdatedSpec(t, id, Values(changes));
    }
  }

  /** The update overwrites with plain `set`: sending the same PUT again
      leaves the table as the first one left it and gets the same answer. */
  lemma PutIdempotent(t: map<string, Item>, j: seq<Effect>, ev: Event, storeFails: bool)
    requires Route(ev).Ok? && Route(ev).value.SetLocation?
    ensures var once := Serve(t, j, ev, storeFails);
            var twice := Serve(once.table, once.journal, ev, storeFails);
            twice.table == once.table && twice.response == once.response
  {
    var a := Route(ev).value;
    if !storeFails && a.id != "" && Defined(a.changes) {
      UpdatedTwice(t, a.id, Values(a.changes));
    }
  }

  /** The body is parsed before the table is reached: a PUT with a body that
      is not JSON, or is JSON null, answers 500 and leaves the store alone
      even when the store would have failed too. */
  lemma BadBodyLeavesStore(t: map<string, Item>, j: seq<Effect>, ev: Event, storeFails: bool, path: string)
    requires MethodOf(ev) == Ok(Some("PUT")) && PathOf(ev) == Ok(Some(path))
    requires RouteMatches(path)
    requires ev.body == Unparsable || ev.body == Parsed(JNull)
    ensures Serve(t, j, ev, storeFails) ==
            Served(t, j, Failed(if ev.body == Unparsable then MalformedJson else PropertyOfUndefined))
  {
  }

  /** OPTIONS answers 200 with no body on any path, without touching the table. */
  lemma PreflightAnyPath(t: map<string, Item>, j: seq<Effect>, ev: Event, storeFails: bool)
    requires MethodOf(ev) == Ok(Some("OPTIONS")) && PathOf(ev).Ok?
    ensures Serve(t, j, ev, storeFails) == Served(t, j, Response(200, Headers, NoBody))
  {
  }

  /** No route takes the request: the method and path resolved, and the
      request is neither a GET (a missing path throws, one ending with
      "/sinkholes" lists), nor a PUT (a missing path throws, a matching one
      updates), nor an OPTIONS. */
  predicate Unrouted(ev: Event) {
    && MethodOf(ev).Ok? && PathOf(ev).Ok?
    && var verb, path := MethodOf(ev).value, PathOf(ev).value;
    && !(verb == Some("GET") && (path.None? || EndsWith(path.value, "/sinkholes")))
    && !(verb == Some("PUT") && (path.None? || RouteMatches(path.value)))
    && verb != Some("OPTIONS")
  }

  /** The answer is 404 exactly for unrouted requests, and then it is the
      "Not Found" reply with the store unchanged. */
  lemma NotFoundIff(t: map<string, Item>, j: seq<Effect>, ev: Event, storeFails: bool)
    ensures Serve(t, j, ev, storeFails).response.statusCode == 404 <==> Unrouted(ev)
    ensures Unrouted(ev) ==> Serve(t, j, ev, storeFails) == Served(t, j, Response(404, Headers, Reply("Not Found", None)))
  {
    var verb, path := MethodOf(ev), PathOf(ev);
    if verb.Ok? && path.Ok? && verb.value == Some("PUT") && path.value.Some? && RouteMatches(path.value.value) {
      assert !Unrouted(ev);
    }
  }

  /** The tests' fixture record. */
  const Fixture: Item := map[
    Id := JStr("123"), Title := JStr("테스트 싱크홀"), Location := JStr("서울시 강남구"),
    Lat := JNum(37.5), Lng := JNum(127.0)
  ]

  /** GET /sinkholes over a table holding one record lists that record. */
  lemma ListScenario(j: seq<Effect>)
    ensures var r := Serve(map["123" := Fixture], j, Event(Some("GET"), Some("/sinkholes"), None, Unparsable), false);
            r.response.statusCode == 200 && r.response.body == Listing(map["123" := Fixture])
  {
    var ev := Event(Some("GET"), Some("/sinkholes"), None, Unparsable);
    assert "/sinkholes"[|"/sinkholes"| - |"/sinkholes"|..] == "/sinkholes";
    ListingReadsOnly(map["123" := Fixture], j, ev, false, "/sinkholes");
  }

  /** A rejected scan answers 500 with "Internal Server Error". */
  lemma ScanFailureScenario(t: map<string, Item>, j: seq<Effect>)
    ensures var r := Serve(t, j, Event(Some("GET"), Some("/sinkholes"), None, Unparsable), true);
            r.response.statusCode == 500 && r.response.body.message == "Internal Server Error"
  {
    var ev := Event(Some("GET"), Some("/sinkholes"), None, Unparsable);
    assert "/sinkholes"[|"/sinkholes"| - |"/sinkholes"|..] == "/sinkholes";
    ListingReadsOnly(t, j, ev, true, "/sinkholes");
  }

  /** GET /unknown answers 404. */
  lemma UnknownScenario(t: map<string, Item>, j: seq<Effect>)
    ensures Serve(t, j, Event(Some("GET"), Some("/unknown"), None, Unparsable), false).response.statusCode == 404
  {
    var ev := Event(Some("GET"), Some("/unknown"), None, Unparsable);
    assert "/unknown"[|"/unknown"| - 1] != "/sinkholes"[|"/sinkholes"| - 1];
    NotFoundIff(t, j, ev, false);
  }

  /** A record as the collector leaves it: no location yet. */
  const Unlocated: Item := map[
    Id := JStr("123"), Title := JStr("테스트 싱크홀"), Location := JNull, Lat := JNull, Lng := JNull
  ]

  /** PUT /sinkholes/123 with a location, lat and lng over a record without
      a location answers 200 with the record carrying the body's values. */
  lemma UpdateScenario(j: seq<Effect>)
    ensures var body := Parsed(JObject(map["location" := JStr("서울시 강남구"), "lat" := JNum(37.5), "lng" := JNum(127.0)]));
            var r := Serve(map["123" := Unlocated], j, Event(Some("PUT"), Some("/sinkholes/123"), None, body), false);
            && r.response.statusCode == 200 && r.response.body.Record?
            && Location in r.response.body.item && r.response.body.item[Location] == JStr("서울시 강남구")
            && Lat in r.response.body.item && r.response.body.item[Lat] == JNum(37.5)
            && Lng in r.response.body.item && r.response.body.item[Lng] == JNum(127.0)
            && r.table["123"] == r.response.body.item
  {
    var path := "/sinkholes/123";
    assert MatchesAt(path);
    LastSegmentAfterSlash("/sinkholes", "123");
    assert "/sinkholes" + "/" + "123" == path;
    assert path[|path| - 1] != "/sinkholes"[|"/sinkholes"| - 1];
  }

  /** The pattern is unanchored: a deeper path still matches, and the id is
      its last segment, not the segment after "/sinkholes/". */
  lemma UnanchoredTarget()
    ensures RouteMatches("/sinkholes/abc/def") && LastSegment("/sinkholes/abc/def") == "def"
    ensures RouteMatches("/prod/sinkholes/42")
    ensures !RouteMatches("/sinkholes/")
  {
    assert MatchesAt("/sinkholes/abc/def");
    LastSegmentAfterSlash("/sinkholes/abc", "def");
    assert "/sinkholes/abc" + "/" + "def" == "/sinkholes/abc/def";
    var p := "/prod/sinkholes/42";
    assert p[5..] == "/sinkholes/42";
    assert MatchesAt(p[5..]);
    RouteMatchesIff(p);
    var q := "/sinkholes/";
    RouteMatchesIff(q);
    forall i | 0 <= i <= |q| ensures !MatchesAt(q[i..]) {
    }
  }
}
