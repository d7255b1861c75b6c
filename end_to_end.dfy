/** The client and the collection route put together: what the form sends is
    what the route stores, and a create carried from the form through the
    route back into the form and the cache. */
module EndToEnd {
  import opened Base
  import opened Text
  import opened UseTodos
  import opened AddTodo
  import opened TodosRoute

  /** What `JSON.stringify` of a request's body becomes after the route's
      `request.json()`: an object with the fields present. `NoPayload` maps to
      a rejected parse only as a placeholder: the `GET` and `DELETE` handlers,
      which receive requests without a body, never parse one. */
  function ServerBody(p: Payload): RequestBody
  {
    match p
    case NoPayload => Malformed
    case CreatePayload(t) =>
      Parsed(JObject(map["title" := JString(t.title), "completed" := JBool(t.completed)]))
    case UpdatePayload(title, completed) =>
      var withTitle: map<string, JsonValue> := if title.Some? then map["title" := JString(title.value)] else map[];
      Parsed(JObject(if completed.Some? then withTitle["completed" := JBool(completed.value)] else withTitle))
  }

  /** The handlers of the two route files: `GET` and `POST` of the collection,
      and `PUT` and `DELETE` of one item, which receive the path segment as
      their `id` parameter. */
  datatype Handler = ListHandler | CreateHandler | ItemHandler(verb: HttpMethod, segment: string) | NoHandler

  /** File-system routing of `/api/todos` and `/api/todos/[id]`: the exact
      collection path, or one further non-empty segment. */
  function Dispatch(r: Request): Handler
  {
    var prefix := CollectionPath + "/";
    if r.path == CollectionPath then
      if r.verb == GET then ListHandler else if r.verb == POST then CreateHandler else NoHandler
    else if |prefix| < |r.path| && r.path[..|prefix|] == prefix && '/' !in r.path[|prefix|..]
            && (r.verb == PUT || r.verb == DELETE)
    then ItemHandler(r.verb, r.path[|prefix|..])
    else NoHandler
  }

  /** Each wrapper's request reaches the handler meant for it; update and
      delete hand the item route the decimal text of the id. */
  lemma WrappersReachTheirHandlers(t: NewTodo, p: TodoPatch, id: int)
    ensures Dispatch(FetchTodosRequest()) == ListHandler
    ensures Dispatch(CreateTodoRequest(t)) == CreateHandler
    ensures Dispatch(UpdateTodoRequest(p)) == ItemHandler(PUT, IntToString(p.id))
    ensures Dispatch(DeleteTodoRequest(id)) == ItemHandler(DELETE, IntToString(id))
  {
    ItemPathReachesItemRoute(p.id);
    ItemPathReachesItemRoute(id);
  }

  lemma ItemPathReachesItemRoute(id: int)
    ensures var prefix := CollectionPath + "/";
      && ItemPath(id) != CollectionPath && |prefix| < |ItemPath(id)|
      && ItemPath(id)[..|prefix|] == prefix && ItemPath(id)[|prefix|..] == IntToString(id)
      && '/' !in IntToString(id)
  {
    var digits := if id < 0 then Decimal(-id) else Decimal(id);
    assert '/' !in digits by {
      forall k | 0 <= k < |digits| ensures digits[k] != '/' {
        assert IsDigit(digits[k]);
      }
    }
    assert |ItemPath(id)| > |CollectionPath|;
  }

  /** The body an update sends: the fields the patch supplies, and never the
      id, which travels in the path. */
  lemma UpdateBodyCarriesPatchFields(p: TodoPatch)
    ensures var b := ServerBody(UpdateTodoRequest(p).payload);
      && b.Parsed? && b.value.JObject? && "id" !in b.value.fields
      && ("title" in b.value.fields <==> p.title.Some?)
      && (p.title.Some? ==> b.value.fields["title"] == JString(p.title.value))
      && ("completed" in b.value.fields <==> p.completed.Some?)
      && (p.completed.Some? ==> b.value.fields["completed"] == JBool(p.completed.value))
  {
  }

  /** The answer of the route's `GET`, as the fetch wrapper reads it: the
      caller receives the whole table. */
  method ListThroughRoute(store: TodoStore) returns (r: Result<ResponseBody, string>)
    ensures r == Success(TodoList(store.todos))
  {
    var resp := store.Get();
    r := CheckResponse(FetchTodos, resp);
  }

  /** Whatever non-blank text the form submits passes the route's check, and
      the route stores it unchanged: the form already trimmed it. */
  lemma SubmittedTitleStoredAsSent(buffer: string)
    requires !Blank(buffer)
    ensures var n := SubmitPayload(buffer).value;
      && AcceptedTitle(ServerBody(CreateTodoRequest(n).payload)) == Success(n.title)
      && Trim(n.title) == n.title
  {
  }

  /** The route's two answers to a create, as the client's wrapper reads them:
      201 is a success carrying the record, 400 the fixed create failure. */
  lemma RouteStatusesAsClientSees(t: Todo, e: string)
    ensures CheckResponse(CreateTodo, Response(201, TodoRecord(t))) == Success(TodoRecord(t))
    ensures CheckResponse(CreateTodo, Response(400, ErrorMessage(e))) == Failure("Failed to create todo")
  {
  }

  /** A submit of the form carried to the route and back: a blank buffer
      changes nothing anywhere; otherwise the route appends the trimmed title
      under the next id, and the form is cleared and the list marked stale. */
  method CreateThroughRoute(form: AddTodoForm, cache: QueryCache, store: TodoStore)
    requires store.Valid()
    modifies form, cache`stale, store
    ensures store.Valid()
    ensures Blank(old(form.title)) ==>
      && store.todos == old(store.todos) && store.nextId == old(store.nextId)
      && form.title == old(form.title) && cache.stale == old(cache.stale)
    ensures !Blank(old(form.title)) ==>
      && store.todos == old(store.todos) + [Todo(old(store.nextId), Trim(old(form.title)), false)]
      && store.nextId == old(store.nextId) + 1
      && form.title == "" && cache.stale
  {
    var req := form.Submit();
    if req.None? {
      return;
    }
    var request := CreateTodoRequest(req.value);
    SubmittedTitleStoredAsSent(form.title);
    var resp := store.Post(ServerBody(request.payload));
    var _, result := cache.RunCreate(req.value, resp);
    form.CreateSettled(result.Success?);
  }
}
