/**
 * The HTTP surface (api/CatApi.kt): a fixed table of (method, path) routes in
 * front of the cat service, and the mapping of found/absent results to status
 * codes. The id parser and the body decoder are library lenses; here they are
 * arbitrary functions carried by a `Codec`, so every property below holds
 * whatever they accept.
 */
module Api {
  import opened Wrappers
  import opened Model
  import opened Service

  datatype HttpMethod = GET | POST | PUT | DELETE | PATCH | HEAD | OPTIONS

  /**
   * A request: its method, its path and its raw body text. The path is the
   * list of segments between '/' separators after leading and trailing
   * slashes are trimmed, so `v1/cats` and `/v1/cats/` are both ["v1", "cats"];
   * segments are non-empty, which a `{param}` placeholder needs to match.
   */
  datatype Request = Request(verb: HttpMethod, path: seq<string>, body: string)

  datatype Status = OK | Created | NoContent | NotFound

  /** The numeric code of each status the handlers produce. */
  function Code(s: Status): int
  {
    match s
    case OK => 200
    case Created => 201
    case NoContent => 204
    case NotFound => 404
  }

  /** What a response carries: nothing, one cat as JSON, or a JSON array of cats. */
  datatype Body = Empty | CatJson(cat: Cat) | CatListJson(cats: seq<Cat>)

  datatype Response = Response(status: Status, body: Body)

  /**
   * Exceptions a handler lets escape: `UUID.fromString` rejecting the path
   * text (IllegalArgumentException), or a lens rejecting the path or body.
   */
  datatype Fault = MalformedId | LensFailure

  /** A handler returns a response or throws; a request no route matches reaches no handler. */
  datatype Outcome = Reply(response: Response) | Thrown(fault: Fault) | Unrouted

  /**
   * The library parsers: `UUID.fromString` (also behind the `Path.uuid()`
   * lens) and the JSON body lens for `CatDto`.
   */
  datatype Codec = Codec(parseUuid: string -> Option<Uuid>, decodeDto: string -> Option<CatDto>)

  /** The six routes; the path-parameter routes keep the raw segment text. */
  datatype Route =
    | ListAll
    | GetById(raw: string)
    | GetWithLens(raw: string)
    | GetWithBodyLens(raw: string)
    | Create
    | DeleteById(raw: string)

  /** The route table: which route, if any, a method and a path select. */
  function Dispatch(m: HttpMethod, path: seq<string>): (r: Option<Route>)
    ensures r.Some? ==> Binding(r.value) == (m, path)
    ensures r.None? ==> path != ["v1", "cats"] || (m != GET && m != POST)
  {
    if path == ["v1", "cats"] then
      if m == GET then Some(ListAll)
      else if m == POST then Some(Create)
      else None
    else if |path| == 3 && path[0] == "v1" then
      assert path == ["v1", path[1], path[2]];
      if path[1] == "cats" && m == GET then Some(GetById(path[2]))
      else if path[1] == "cats" && m == DELETE then Some(DeleteById(path[2]))
      else if path[1] == "cats-with-lens" && m == GET then Some(GetWithLens(path[2]))
      else if path[1] == "cats-with-body-lens" && m == GET then Some(GetWithBodyLens(path[2]))
      else None
    else None
  }

  /** The method and path each route is bound to: the table read backwards. */
  function Binding(r: Route): (HttpMethod, seq<string>)
  {
    match r
    case ListAll => (GET, ["v1", "cats"])
    case GetById(raw) => (GET, ["v1", "cats", raw])
    case GetWithLens(raw) => (GET, ["v1", "cats-with-lens", raw])
    case GetWithBodyLens(raw) => (GET, ["v1", "cats-with-body-lens", raw])
    case Create => (POST, ["v1", "cats"])
    case DeleteById(raw) => (DELETE, ["v1", "cats", raw])
  }

  /** Every route is reached by exactly the request it is bound to, and by no other. */
  lemma DispatchMatchesBinding(m: HttpMethod, path: seq<string>, r: Route)
    ensures Dispatch(Binding(r).0, Binding(r).1) == Some(r)
    ensures Dispatch(m, path) == Some(r) ==> Binding(r) == (m, path)
  {
    if Dispatch(m, path) == Some(r) && |path| == 3 {
      assert path == ["v1", path[1], path[2]];
    }
  }

  /** One path, two routes: `/v1/cats` lists on GET, creates on POST, and nothing else. */
  lemma SamePathSelectedByMethod(m: HttpMethod)
    ensures Dispatch(GET, ["v1", "cats"]) == Some(ListAll)
    ensures Dispatch(POST, ["v1", "cats"]) == Some(Create)
    ensures m != GET && m != POST ==> Dispatch(m, ["v1", "cats"]).None?
  {
  }

  /** `cat?.let { 200 with the cat } ?: 404` */
  function FoundOrNotFound(c: Option<Cat>): (r: Response)
    ensures Code(r.status) == (if c.Some? then 200 else 404)
    ensures c.Some? ==> r.body == CatJson(c.value)
    ensures c.None? ==> r.body == Empty
  {
    match c
    case Some(cat) => Response(OK, CatJson(cat))
    case None => Response(NotFound, Empty)
  }

  /** `deleteCat?.let { 204 } ?: 404` */
  function DeletedOrNotFound(c: Option<Cat>): (r: Response)
    ensures Code(r.status) == (if c.Some? then 204 else 404)
    ensures r.body == Empty
  {
    match c
    case Some(_) => Response(NoContent, Empty)
    case None => Response(NotFound, Empty)
  }

  /** The outcome of one request and the store it leaves behind. */
  datatype Step = Step(outcome: Outcome, cats: seq<Cat>)

  /**
   * One request against store `cats`. `newId` and `now` are what the id
   * generator and the clock would give if the handler asked for them.
   */
  function Serve(cats: seq<Cat>, codec: Codec, req: Request, newId: Uuid, now: Instant): (r: Step)
    ensures r.outcome.Unrouted? <==> Dispatch(req.verb, req.path).None?
    ensures r.outcome.Unrouted? || r.outcome.Thrown? ==> r.cats == cats
    ensures req.verb == GET ==> r.cats == cats
  {
    match Dispatch(req.verb, req.path)
    case None => Step(Unrouted, cats)
    case Some(route) => ServeRoute(cats, codec, route, req.body, newId, now)
  }

  /** One handler of the table. */
  function ServeRoute(cats: seq<Cat>, codec: Codec, route: Route, body: string, newId: Uuid, now: Instant): (r: Step)
    ensures !r.outcome.Unrouted?
    ensures r.outcome.Thrown? ==> r.cats == cats
    ensures Binding(route).0 == GET ==> r.cats == cats
  {
    match route
    case ListAll => Step(Reply(Response(OK, CatListJson(cats))), cats)
    // unguarded: the parse failure escapes as an exception
    case GetById(raw) => Lookup(cats, codec.parseUuid(raw), MalformedId)
    case GetWithLens(raw) => Lookup(cats, codec.parseUuid(raw), LensFailure)
    case GetWithBodyLens(raw) => Lookup(cats, codec.parseUuid(raw), LensFailure)
    case Create => Add(cats, codec.decodeDto(body), newId, now)
    case DeleteById(raw) => Delete(cats, codec.parseUuid(raw))
  }

  /** A lookup handler: `fault` when the id did not parse, else 200 or 404; the store is only read. */
  function Lookup(cats: seq<Cat>, id: Option<Uuid>, fault: Fault): (r: Step)
    ensures r.cats == cats
    ensures id.None? <==> r.outcome == Thrown(fault)
  {
    match id
    case None => Step(Thrown(fault), cats)
    case Some(id) => Step(Reply(FoundOrNotFound(Find(cats, id))), cats)
  }

  /** The POST handler: a lens failure when the body did not decode, else the created cat. */
  function Add(cats: seq<Cat>, dto: Option<CatDto>, newId: Uuid, now: Instant): (r: Step)
    ensures dto.None? ==> r == Step(Thrown(LensFailure), cats)
    ensures dto.Some? ==> |r.cats| == |cats| + 1 && r.cats[..|cats|] == cats
  {
    match dto
    case None => Step(Thrown(LensFailure), cats)
    case Some(dto) =>
      var cat := NewCat(dto, newId, now);
      Step(Reply(Response(Created, CatJson(cat))), cats + [cat])
  }

  /** The DELETE handler: a lens failure when the id did not parse, else 204 or 404. */
  function Delete(cats: seq<Cat>, id: Option<Uuid>): (r: Step)
    ensures id.None? ==> r == Step(Thrown(LensFailure), cats)
    ensures id.Some? ==> |r.cats| == |cats| - (if Fresh(cats, id.value) then 0 else 1)
  {
    match id
    case None => Step(Thrown(LensFailure), cats)
    case Some(id) => Step(Reply(DeletedOrNotFound(Find(cats, id))), AfterDelete(cats, id))
  }

  /**
   * The handler `svc.api()` returns, applied to one request: it dispatches,
   * parses, and calls the service's own methods.
   */
  method Handle(svc: CatService, codec: Codec, req: Request, newId: Uuid, now: Instant) returns (out: Outcome)
    modifies svc
    ensures Step(out, svc.cats) == Serve(old(svc.cats), codec, req, newId, now)
  {
    var route := Dispatch(req.verb, req.path);
    match route {
      case None =>
        out := Unrouted;
      case Some(ListAll) =>
        var cats := svc.ListCats();
        out := Reply(Response(OK, CatListJson(cats)));
      case Some(GetById(raw)) =>
        var id := codec.parseUuid(raw);
        if id.None? {
          out := Thrown(MalformedId);
        } else {
          var cat := svc.GetCat(id.value);
          out := Reply(FoundOrNotFound(cat));
        }
      case Some(GetWithLens(raw)) =>
        var id := codec.parseUuid(raw);
        if id.None? {
          out := Thrown(LensFailure);
        } else {
          var cat := svc.GetCat(id.value);
          out := Reply(FoundOrNotFound(cat));
        }
      case Some(GetWithBodyLens(raw)) =>
        var id := codec.parseUuid(raw);
        if id.None? {
          out := Thrown(LensFailure);
        } else {
          var cat := svc.GetCat(id.value);
          out := Reply(FoundOrNotFound(cat));
        }
      case Some(Create) =>
        var dto := codec.decodeDto(req.body);
        if dto.None? {
          out := Thrown(LensFailure);
        } else {
          var added := svc.AddCat(dto.value, newId, now);
          out := Reply(Response(Created, CatJson(added)));
        }
      case Some(DeleteById(raw)) =>
        var id := codec.parseUuid(raw);
        if id.None? {
          out := Thrown(LensFailure);
        } else {
          var deleted := svc.DeleteCat(id.value);
          out := Reply(DeletedOrNotFound(deleted));
        }
    }
  }

  /** A request bound to a route is served by that route's handler. */
  lemma ServesBoundRoute(cats: seq<Cat>, codec: Codec, route: Route, body: string, newId: Uuid, now: Instant)
    ensures Serve(cats, codec, Request(Binding(route).0, Binding(route).1, body), newId, now)
         == ServeRoute(cats, codec, route, body, newId, now)
  {
    DispatchMatchesBinding(Binding(route).0, Binding(route).1, route);
  }

  /** `POST /v1/cats` is served by the create handler. */
  lemma ServesCreate(cats: seq<Cat>, codec: Codec, body: string, newId: Uuid, now: Instant)
    ensures Serve(cats, codec, Request(POST, ["v1", "cats"], body), newId, now)
         == Add(cats, codec.decodeDto(body), newId, now)
  {
    ServesBoundRoute(cats, codec, Create, body, newId, now);
  }

  /** `DELETE /v1/cats/{id}` is served by the delete handler. */
  lemma ServesDelete(cats: seq<Cat>, codec: Codec, raw: string, body: string, newId: Uuid, now: Instant)
    ensures Serve(cats, codec, Request(DELETE, ["v1", "cats", raw], body), newId, now)
         == Delete(cats, codec.parseUuid(raw))
  {
    ServesBoundRoute(cats, codec, DeleteById(raw), body, newId, now);
  }

  // ---------------------------------------------------------------------------
  // Properties of the handler

  /** `GET /v1/cats` always answers 200 with the whole store, in order, even when it is empty. */
  lemma ListIsOkWithContents(cats: seq<Cat>, codec: Codec, body: string, newId: Uuid, now: Instant)
    ensures Serve(cats, codec, Request(GET, ["v1", "cats"], body), newId, now)
         == Step(Reply(Response(OK, CatListJson(cats))), cats)
  {
  }

  /** The three lookup routes: 200 with the cat exactly when it is found, 404 with no body otherwise. */
  lemma LookupStatus(cats: seq<Cat>, codec: Codec, route: Route, body: string, newId: Uuid, now: Instant, id: Uuid)
    requires route.GetById? || route.GetWithLens? || route.GetWithBodyLens?
    requires codec.parseUuid(route.raw) == Some(id)
    ensures var st := ServeRoute(cats, codec, route, body, newId, now);
      && st.cats == cats
      && st.outcome.Reply?
      && (st.outcome.response.status == OK <==> !Fresh(cats, id))
      && (st.outcome.response.status == OK ==> st.outcome.response.body == CatJson(Find(cats, id).value))
      && (st.outcome.response.status != OK ==> st.outcome.response == Response(NotFound, Empty))
  {
  }

  /**
   * An unparsable id: the route without a lens throws from `UUID.fromString`
   * (a crash, not a 4xx); the lens routes throw a lens failure. None of them
   * reaches the store.
   */
  lemma MalformedIdIsThrown(cats: seq<Cat>, codec: Codec, raw: string, body: string, newId: Uuid, now: Instant)
    requires codec.parseUuid(raw).None?
    ensures Serve(cats, codec, Request(GET, ["v1", "cats", raw], body), newId, now) == Step(Thrown(MalformedId), cats)
    ensures Serve(cats, codec, Request(GET, ["v1", "cats-with-lens", raw], body), newId, now) == Step(Thrown(LensFailure), cats)
    ensures Serve(cats, codec, Request(GET, ["v1", "cats-with-body-lens", raw], body), newId, now) == Step(Thrown(LensFailure), cats)
    ensures Serve(cats, codec, Request(DELETE, ["v1", "cats", raw], body), newId, now) == Step(Thrown(LensFailure), cats)
  {
  }

  /**
   * `POST /v1/cats` with a decodable body: 201 with the created cat (the
   * generated id, the clock's instant, the input's fields), appended once.
   * An undecodable body throws and leaves the store alone.
   */
  lemma CreateResponds(cats: seq<Cat>, codec: Codec, body: string, newId: Uuid, now: Instant)
    ensures var st := Serve(cats, codec, Request(POST, ["v1", "cats"], body), newId, now);
      match codec.decodeDto(body)
      case None => st == Step(Thrown(LensFailure), cats)
      case Some(dto) =>
        && st.outcome.Reply? && st.outcome.response.status == Created
        && st.outcome.response.body.CatJson?
        && var c := st.outcome.response.body.cat;
        && Code(st.outcome.response.status) == 201
        && c.id == newId && c.createdAt == now && DtoOf(c) == dto
        && st.cats == cats + [c]
  {
  }

  /** `DELETE /v1/cats/{id}`: 204 and the found cat's position removed, or 404 and no change. */
  lemma DeleteStatus(cats: seq<Cat>, codec: Codec, raw: string, body: string, newId: Uuid, now: Instant, id: Uuid)
    requires codec.parseUuid(raw) == Some(id)
    ensures var st := Serve(cats, codec, Request(DELETE, ["v1", "cats", raw], body), newId, now);
      && st.outcome.Reply?
      && (st.outcome.response == Response(NoContent, Empty) <==> !Fresh(cats, id))
      && (Fresh(cats, id) ==> st == Step(Reply(Response(NotFound, Empty)), cats))
      && (!Fresh(cats, id) ==>
            var k := FirstIndex(cats, id);
            k < |cats| && st.cats == cats[..k] + cats[k + 1..])
  {
    DeleteRemovesFound(cats, id);
  }

  /** GET never changes the store, so a repeated GET gives the same outcome. */
  lemma GetIsReadOnly(cats: seq<Cat>, codec: Codec, req: Request, newId: Uuid, now: Instant, newId': Uuid, now': Instant)
    requires req.verb == GET
    ensures Serve(cats, codec, req, newId, now).cats == cats
    ensures Serve(cats, codec, req, newId', now').outcome == Serve(cats, codec, req, newId, now).outcome
  {
  }

  /** Create then look up: with a fresh id, each lookup route returns 200 with exactly the created cat. */
  lemma CreateThenGet(cats: seq<Cat>, codec: Codec, body: string, raw: string, newId: Uuid, now: Instant, later: Request, id2: Uuid, now2: Instant)
    requires Fresh(cats, newId)
    requires codec.decodeDto(body).Some?
    requires codec.parseUuid(raw) == Some(newId)
    requires later.verb == GET && later.path in [["v1", "cats", raw], ["v1", "cats-with-lens", raw], ["v1", "cats-with-body-lens", raw]]
    ensures var st := Serve(cats, codec, Request(POST, ["v1", "cats"], body), newId, now);
      && st.outcome.Reply?
      && var created := st.outcome.response.body;
      && Serve(st.cats, codec, later, id2, now2).outcome == Reply(Response(OK, created))
      && DtoOf(created.cat) == codec.decodeDto(body).value
  {
    var c := NewCat(codec.decodeDto(body).value, newId, now);
    AddedIsFound(cats, c);
  }

  /** An id that was never created: every lookup route and DELETE answer 404 and change nothing. */
  lemma NeverCreatedIsNotFound(cats: seq<Cat>, codec: Codec, req: Request, id: Uuid, newId: Uuid, now: Instant)
    requires Fresh(cats, id)
    requires |req.path| == 3 && codec.parseUuid(req.path[2]) == Some(id)
    requires Dispatch(req.verb, req.path).Some?
    ensures Serve(cats, codec, req, newId, now) == Step(Reply(Response(NotFound, Empty)), cats)
  {
  }

  /**
   * Delete once: after a DELETE that answered 204, on a store with unique ids,
   * a GET or DELETE of the same id answers 404.
   */
  lemma DeleteOnce(cats: seq<Cat>, codec: Codec, raw: string, body: string, newId: Uuid, now: Instant, later: Request)
    requires UniqueIds(cats)
    requires codec.parseUuid(raw).Some?
    requires Serve(cats, codec, Request(DELETE, ["v1", "cats", raw], body), newId, now).outcome == Reply(Response(NoContent, Empty))
    requires later.path == ["v1", "cats", raw] && (later.verb == GET || later.verb == DELETE)
    ensures var st := Serve(cats, codec, Request(DELETE, ["v1", "cats", raw], body), newId, now);
      Serve(st.cats, codec, later, newId, now).outcome == Reply(Response(NotFound, Empty))
  {
    var id := codec.parseUuid(raw).value;
    ServesDelete(cats, codec, raw, body, newId, now);
    DeleteRemovesUniqueId(cats, id);
    var rest := AfterDelete(cats, id);
    if later.verb == GET {
      ServesBoundRoute(rest, codec, GetById(raw), later.body, newId, now);
      assert later == Request(Binding(GetById(raw)).0, Binding(GetById(raw)).1, later.body);
    } else {
      ServesDelete(rest, codec, raw, later.body, newId, now);
      assert later == Request(DELETE, ["v1", "cats", raw], later.body);
    }
  }

  /** Create then delete: with a fresh id, deleting the created id answers 204 and restores the store. */
  lemma CreateThenDelete(cats: seq<Cat>, codec: Codec, body: string, raw: string, newId: Uuid, now: Instant, body2: string, id2: Uuid, now2: Instant)
    requires Fresh(cats, newId)
    requires codec.decodeDto(body).Some?
    requires codec.parseUuid(raw) == Some(newId)
    ensures var st := Serve(cats, codec, Request(POST, ["v1", "cats"], body), newId, now);
      Serve(st.cats, codec, Request(DELETE, ["v1", "cats", raw], body2), id2, now2)
        == Step(Reply(Response(NoContent, Empty)), cats)
  {
    var c := NewCat(codec.decodeDto(body).value, newId, now);
    ServesCreate(cats, codec, body, newId, now);
    ServesDelete(cats + [c], codec, raw, body2, id2, now2);
    DeleteOfAdded(cats, c);
  }

  /** The DELETE handler on the id of a cat just appended under a fresh id answers 204 and restores the store. */
  lemma DeleteOfAdded(cats: seq<Cat>, c: Cat)
    requires Fresh(cats, c.id)
    ensures Delete(cats + [c], Some(c.id)) == Step(Reply(Response(NoContent, Empty)), cats)
  {
    AddThenDeleteRestores(cats, c);
  }

  /** Unique ids are kept by every request, provided the generator's id is fresh. */
  lemma ServeKeepsUniqueIds(cats: seq<Cat>, codec: Codec, req: Request, newId: Uuid, now: Instant)
    requires UniqueIds(cats) && Fresh(cats, newId)
    ensures UniqueIds(Serve(cats, codec, req, newId, now).cats)
  {
    match Dispatch(req.verb, req.path)
    case None =>
    case Some(route) =>
      match route
      case Create =>
        if codec.decodeDto(req.body).Some? {
          AddFreshKeepsUnique(cats, NewCat(codec.decodeDto(req.body).value, newId, now));
        }
      case DeleteById(raw) =>
        if codec.parseUuid(raw).Some? {
          DeleteKeepsUnique(cats, codec.parseUuid(raw).value);
        }
      case _ =>
  }
}
