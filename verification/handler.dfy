/**
 * The request handler: one entry point per route. Each resolves the caller
 * from the authorizer claim, prepares the service's input from the event,
 * makes one service call and turns its outcome into a response with a
 * status code, the CORS headers and a body.
 *
 * The caller is resolved before the part of each entry point that catches
 * errors, so a missing authorizer is not turned into a response: the
 * invocation itself fails (Threw).
 */
module Handler {
  import opened ShopList
  import opened Service

  /** A response header value: text or a boolean flag. */
  datatype HeaderValue = Text(text: string) | Flag(flag: bool)

  /** A response body, before serialisation. */
  datatype Body =
    | Lists(lists: seq<ShoppingList>)
    | Record(list: ShoppingList)
    | MessageBody(message: string)

  datatype Response = Response(statusCode: int, headers: map<string, HeaderValue>, body: Body)

  /** The identity claims the authorizer attached; `sub` names the user. */
  datatype Authorizer = Authorizer(sub: string)

  /**
   * The parts of an inbound event the handler reads: the authorizer of the
   * request context, the `id` path parameter and the parsed body.
   */
  datatype Event = Event(authorizer: Option<Authorizer>, pathId: string, body: ShoppingList)

  /** An entry point either answers with a response or fails with an error. */
  datatype Invocation = Responded(response: Response) | Threw(error: Error)

  /** The headers every response carries. */
  const CorsHeaders: map<string, HeaderValue> :=
    map["Access-Control-Allow-Origin" := Text("*"), "Access-Control-Allow-Credentials" := Flag(true)]

  /** getUserId: the `sub` claim, or `not_authorized` without an authorizer. */
  function GetUserId(event: Event): (r: Result<string>)
    ensures r.Failure? <==> event.authorizer.None?
    ensures r.Failure? ==> r.error == NotAuthorized
    ensures r.Success? ==> r.value == event.authorizer.value.sub
  {
    match event.authorizer
    case None => Failure(NotAuthorized)
    case Some(authorizer) => Success(authorizer.sub)
  }

  /** A service outcome as a response: the record on success, `{message}` otherwise. */
  function Reply(r: Result<ShoppingList>, successStatus: int, failureStatus: int): Response {
    match r
    case Success(list) => Response(successStatus, CorsHeaders, Record(list))
    case Failure(e) => Response(failureStatus, CorsHeaders, MessageBody(Message(e)))
  }

  /** getAll answers 200 with the lists. */
  function GetAllResponse(lists: seq<ShoppingList>): (resp: Response)
    ensures resp.statusCode == 200 && resp.headers == CorsHeaders && resp.body == Lists(lists)
  {
    Response(200, CorsHeaders, Lists(lists))
  }

  /** getById answers 200 with the list, and 404 for every service error. */
  function GetByIdResponse(r: Result<ShoppingList>): (resp: Response)
    ensures resp.headers == CorsHeaders
    ensures resp.statusCode == (if r.Success? then 200 else 404)
    ensures r.Success? ==> resp.body == Record(r.value)
    ensures r.Failure? ==> resp.body == MessageBody(Message(r.error))
  {
    Reply(r, 200, 404)
  }

  /** create answers 201 with the created list, and 400 for every service error. */
  function CreateResponse(r: Result<ShoppingList>): (resp: Response)
    ensures resp.headers == CorsHeaders
    ensures resp.statusCode == (if r.Success? then 201 else 400)
    ensures r.Success? ==> resp.body == Record(r.value)
    ensures r.Failure? ==> resp.body == MessageBody(Message(r.error))
  {
    Reply(r, 201, 400)
  }

  /** update answers 200 with the updated list, and 400 for every service error. */
  function UpdateResponse(r: Result<ShoppingList>): (resp: Response)
    ensures resp.headers == CorsHeaders
    ensures resp.statusCode == (if r.Success? then 200 else 400)
    ensures r.Success? ==> resp.body == Record(r.value)
    ensures r.Failure? ==> resp.body == MessageBody(Message(r.error))
  {
    Reply(r, 200, 400)
  }

  /** remove answers 200 with `{id}`, and 400 for every service error, not-found included. */
  function RemoveResponse(r: Result<ShoppingList>): (resp: Response)
    ensures resp.headers == CorsHeaders
    ensures resp.statusCode == (if r.Success? then 200 else 400)
    ensures r.Success? ==> resp.body == Record(r.value)
    ensures r.Failure? ==> resp.body == MessageBody(Message(r.error))
  {
    Reply(r, 200, 400)
  }

  /** The body of a create, owned by the caller whatever owner it named. */
  function CreateInput(userId: string, body: ShoppingList): (input: ShoppingList)
    ensures input.userId == Some(userId)
    ensures input.(userId := body.userId) == body
  {
    body.(userId := Some(userId))
  }

  /** The body of an update, owned by the caller and addressed by the path id. */
  function UpdateInput(userId: string, pathId: string, body: ShoppingList): (input: ShoppingList)
    ensures input.userId == Some(userId) && input.id == Some(pathId)
    ensures input.(userId := body.userId, id := body.id) == body
  {
    body.(userId := Some(userId), id := Some(pathId))
  }

  /**
   * A list that the service looked up is not found: getById reports it as
   * 404, remove as 400.
   */
  lemma NotFoundStatuses(t: Table, userId: string, id: string)
    requires userId != "" && (userId, id) !in t
    ensures GetByIdResponse(FindList(t, Some(userId), id)).statusCode == 404
    ensures RemoveResponse(DeleteOutcome(t, userId, id).result).statusCode == 400
    ensures GetByIdResponse(FindList(t, Some(userId), id)).body
         == RemoveResponse(DeleteOutcome(t, userId, id).result).body
         == MessageBody("list_not_found: " + userId + "/" + id)
  {
  }

  /** Route GET /lists. */
  method GetAll(service: ShoppingListService, event: Event) returns (o: Invocation)
    requires service.Valid()
    modifies service`itemCount
    ensures service.Valid() && service.table == old(service.table)
    ensures event.authorizer.None? ==> o == Threw(NotAuthorized) && service.itemCount == old(service.itemCount)
    ensures event.authorizer.Some? ==>
      && o.Responded? && o.response.statusCode == 200 && o.response.headers == CorsHeaders
      && o.response.body.Lists?
      && IsListing(service.table, event.authorizer.value.sub, o.response.body.lists)
      && service.itemCount == |o.response.body.lists|
  {
    var userId := GetUserId(event);
    if userId.Failure? {
      return Threw(userId.error);
    }
    var lists := service.GetAll(userId.value);
    o := Responded(GetAllResponse(lists));
  }

  /** Route GET /lists/{id}. */
  method GetById(service: ShoppingListService, event: Event) returns (o: Invocation)
    ensures event.authorizer.None? ==> o == Threw(NotAuthorized)
    ensures event.authorizer.Some? ==>
      o == Responded(GetByIdResponse(FindList(service.table, Some(event.authorizer.value.sub), event.pathId)))
    ensures o.Responded? && o.response.body.Record? ==> o.response.body.list.userId.None?
  {
    var userId := GetUserId(event);
    if userId.Failure? {
      return Threw(userId.error);
    }
    var found := service.GetById(Some(userId.value), event.pathId);
    o := Responded(GetByIdResponse(found));
  }

  /** Route POST /lists; `newId` stands for the UUID the service generates. */
  method Create(service: ShoppingListService, event: Event, newId: string) returns (o: Invocation)
    requires service.Valid()
    modifies service`table
    ensures service.Valid() && service.itemCount == old(service.itemCount)
    ensures event.authorizer.None? ==> o == Threw(NotAuthorized) && service.table == old(service.table)
    ensures event.authorizer.Some? ==>
      var c := CreateOutcome(old(service.table), service.itemCount, service.listQuota, service.itemQuota,
                             CreateInput(event.authorizer.value.sub, event.body), newId);
      o == Responded(CreateResponse(c.result)) && service.table == c.table
    ensures o.Responded? && o.response.body.Record? ==> o.response.body.list.userId.None?
  {
    var userId := GetUserId(event);
    if userId.Failure? {
      return Threw(userId.error);
    }
    var input := event.body;
    input := input.(userId := Some(userId.value));
    var created := service.Create(input, newId);
    o := Responded(CreateResponse(created));
  }

  /** Route PUT /lists/{id}. */
  method Update(service: ShoppingListService, event: Event) returns (o: Invocation)
    requires service.Valid()
    modifies service`table
    ensures service.Valid() && service.itemCount == old(service.itemCount)
    ensures event.authorizer.None? ==> o == Threw(NotAuthorized) && service.table == old(service.table)
    ensures event.authorizer.Some? ==>
      var c := UpdateOutcome(old(service.table), service.itemQuota,
                             UpdateInput(event.authorizer.value.sub, event.pathId, event.body));
      o == Responded(UpdateResponse(c.result)) && service.table == c.table
    ensures o.Responded? && o.response.body.Record? ==> o.response.body.list.userId.None?
  {
    var userId := GetUserId(event);
    if userId.Failure? {
      return Threw(userId.error);
    }
    var input := event.body;
    input := input.(userId := Some(userId.value));
    input := input.(id := Some(event.pathId));
    var updated := service.Update(input);
    o := Responded(UpdateResponse(updated));
  }

  /** Route DELETE /lists/{id}. */
  method Remove(service: ShoppingListService, event: Event) returns (o: Invocation)
    requires service.Valid()
    modifies service`table
    ensures service.Valid() && service.itemCount == old(service.itemCount)
    ensures event.authorizer.None? ==> o == Threw(NotAuthorized) && service.table == old(service.table)
    ensures event.authorizer.Some? ==>
      var c := DeleteOutcome(old(service.table), event.authorizer.value.sub, event.pathId);
      o == Responded(RemoveResponse(c.result)) && service.table == c.table
  {
    var userId := GetUserId(event);
    if userId.Failure? {
      return Threw(userId.error);
    }
    var deleted := service.Delete(userId.value, event.pathId);
    o := Responded(RemoveResponse(deleted));
  }

  /** The service outcomes of the five requests of Session, one table state after another. */
  lemma SessionOutcomes(groceries: ShoppingList, stored: ShoppingList)
    requires groceries == Blank.(title := Some("Groceries"), items := Some([Item("milk")]))
    requires stored == groceries.(userId := Some("u1"), id := Some("list-1"))
    ensures CreateOutcome(map[], -1, DefaultListQuota, DefaultItemQuota, CreateInput("u1", groceries), "list-1")
         == Change(Success(Strip(stored)), map[("u1", "list-1") := stored])
    ensures FindList(map[("u1", "list-1") := stored], Some("u1"), "list-1") == Success(Strip(stored))
    ensures UpdateOutcome(map[("u1", "list-1") := stored], DefaultItemQuota,
                          UpdateInput("u1", "list-1", Blank.(title := Some("Gr"))))
         == Change(Failure(TitleIsTooShort("Gr")), map[("u1", "list-1") := stored])
    ensures DeleteOutcome(map[("u1", "list-1") := stored], "u1", "list-1")
         == Change(Success(Blank.(id := Some("list-1"))), map[])
    ensures FindList(map[], Some("u1"), "list-1") == Failure(ListNotFound("u1", "list-1"))
  {
  }

  /** The message of the rename the session attempts, written out. */
  lemma ShortTitleMessage()
    ensures Message(TitleIsTooShort("Gr")) == "title_is_too_short: Gr "
  {
    assert Payload(TitleIsTooShort("Gr")) == "Gr ";
  }

  /** The message of the read after the delete, written out. */
  lemma MissingListMessage()
    ensures Message(ListNotFound("u1", "list-1")) == "list_not_found: u1/list-1"
  {
    assert Payload(ListNotFound("u1", "list-1")) == "u1/list-1";
  }

  /**
   * One user's session against a fresh service on an empty table: create
   * "Groceries", read it back, try to rename it to a two-letter title,
   * delete it, read it again. The status codes and bodies of the five
   * responses.
   */
  method Session() returns (statuses: seq<int>, bodies: seq<Body>)
    ensures statuses == [201, 200, 400, 200, 404]
    ensures |bodies| == 5
    ensures bodies[0] == bodies[1]
         == Record(Blank.(id := Some("list-1"), title := Some("Groceries"), items := Some([Item("milk")])))
    ensures bodies[2] == MessageBody(Message(TitleIsTooShort("Gr")))
    ensures bodies[3] == Record(Blank.(id := Some("list-1")))
    ensures bodies[4] == MessageBody(Message(ListNotFound("u1", "list-1")))
  {
    var service := new ShoppingListService(map[], None, None);
    var caller := Some(Authorizer("u1"));
    var groceries := Blank.(title := Some("Groceries"), items := Some([Item("milk")]));
    var stored := groceries.(userId := Some("u1"), id := Some("list-1"));
    SessionOutcomes(groceries, stored);
    var created := Create(service, Event(caller, "", groceries), "list-1");
    assert service.table == map[("u1", "list-1") := stored];
    assert created.response == Response(201, CorsHeaders, Record(Strip(stored)));
    var read := GetById(service, Event(caller, "list-1", Blank));
    assert read.response == Response(200, CorsHeaders, Record(Strip(stored)));
    var renamed := Update(service, Event(caller, "list-1", Blank.(title := Some("Gr"))));
    assert renamed.response == Response(400, CorsHeaders, MessageBody(Message(TitleIsTooShort("Gr"))));
    assert service.table == map[("u1", "list-1") := stored];
    var removed := Remove(service, Event(caller, "list-1", Blank));
    assert service.table == map[];
    assert removed.response == Response(200, CorsHeaders, Record(Blank.(id := Some("list-1"))));
    var reread := GetById(service, Event(caller, "list-1", Blank));
    assert reread.response == Response(404, CorsHeaders, MessageBody(Message(ListNotFound("u1", "list-1"))));
    statuses := [created.response.statusCode, read.response.statusCode, renamed.response.statusCode,
                 removed.response.statusCode, reread.response.statusCode];
    bodies := [created.response.body, read.response.body, renamed.response.body,
               removed.response.body, reread.response.body];
  }
}
