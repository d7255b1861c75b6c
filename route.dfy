/** The collection route of the todo API (`GET` and `POST /api/todos`): a
    process-wide table of todos grown in place, and the id counter that hands
    out fresh ids. */
module TodosRoute {
  import opened Base
  import opened Text

  const TitleError: string := "Title is required and must be a string"
  const InvalidJson: string := "Invalid JSON"

  /** A JSON value as `request.json()` decodes it. Numbers are kept as integers:
      only their type and truthiness matter to the route. */
  datatype JsonValue =
    | JNull
    | JBool(b: bool)
    | JNumber(n: int)
    | JString(s: string)
    | JArray(items: seq<JsonValue>)
    | JObject(fields: map<string, JsonValue>)

  /** The request body: `request.json()` either rejects or yields a value. */
  datatype RequestBody = Malformed | Parsed(value: JsonValue)

  /** A value read out of the parsed body: a JSON value or `undefined`. */
  datatype JsValue = Undefined | Defined(v: JsonValue)

  /** The JSON bodies the route answers with. */
  datatype ResponseBody =
    | TodoList(todos: seq<Todo>)
    | TodoRecord(todo: Todo)
    | ErrorMessage(error: string)

  /** JavaScript truthiness of a value read from JSON. */
  predicate Truthy(x: JsValue)
  {
    match x
    case Undefined => false
    case Defined(JNull) => false
    case Defined(JBool(b)) => b
    case Defined(JNumber(n)) => n != 0
    case Defined(JString(s)) => s != ""
    case Defined(JArray(_)) => true
    case Defined(JObject(_)) => true
  }

  /** `typeof x === 'string'`. */
  predicate TypeofIsString(x: JsValue)
  {
    x.Defined? && x.v.JString?
  }

  /** `const { title } = body`: throws (None) on `null`; reads the `title`
      property of an object; any other value has no own `title` property. */
  function DestructureTitle(body: JsonValue): (r: Option<JsValue>)
    ensures r.None? <==> body.JNull?
    ensures r.Some? && r.value.Defined? <==> body.JObject? && "title" in body.fields
    ensures r.Some? && r.value.Defined? ==> r.value.v == body.fields["title"]
  {
    match body
    case JNull => None
    case JObject(fields) => Some(if "title" in fields then Defined(fields["title"]) else Undefined)
    case _ => Some(Undefined)
  }

  /** `!title || typeof title !== 'string'` refuses exactly what is not a
      non-empty string: among strings, only `""` is falsy. */
  lemma TitleCheckRefusesAllButNonEmptyStrings(x: JsValue)
    ensures Truthy(x) && TypeofIsString(x) <==> x.Defined? && x.v.JString? && x.v.s != ""
  {
  }

  /** The body carries a `title` that is a non-empty string. */
  predicate HasNonEmptyStringTitle(body: RequestBody)
  {
    && body.Parsed?
    && body.value.JObject?
    && "title" in body.value.fields
    && body.value.fields["title"].JString?
    && body.value.fields["title"].s != ""
  }

  /** The part of `POST` before the store is touched: reading the body, then
      the check `!title || typeof title !== 'string'`. Success carries the raw
      (untrimmed) title; Failure carries the message of the 400 response. */
  function AcceptedTitle(body: RequestBody): (r: Result<string, string>)
    ensures r.Success? <==> HasNonEmptyStringTitle(body)
    ensures r.Success? ==> r.value == body.value.fields["title"].s
    ensures r.Failure? ==>
      r.error == (if body.Malformed? || body.value.JNull? then InvalidJson else TitleError)
  {
    match body
    case Malformed => Failure(InvalidJson)
    case Parsed(v) =>
      match DestructureTitle(v)
      case None => Failure(InvalidJson)
      case Some(title) =>
        if !Truthy(title) || !TypeofIsString(title) then Failure(TitleError)
        else Success(title.v.s)
  }

  /** The table as the module starts. */
  function InitialTodos(): seq<Todo>
  {
    [ Todo(1, "React Query 배우기", false),
      Todo(2, "Todo 앱 만들기", true),
      Todo(3, "문서 작성하기", false) ]
  }

  const InitialNextId: int := 4

  /** Ids are positive, strictly increasing in table order, and all below the counter. */
  ghost predicate StoreInvariant(todos: seq<Todo>, nextId: int)
  {
    && 1 <= nextId
    && (forall i :: 0 <= i < |todos| ==> 1 <= todos[i].id < nextId)
    && (forall i, j :: 0 <= i < j < |todos| ==> todos[i].id < todos[j].id)
  }

  ghost predicate IdsUnique(todos: seq<Todo>)
  {
    forall i, j :: 0 <= i < |todos| && 0 <= j < |todos| && i != j ==> todos[i].id != todos[j].id
  }

  /** The module-level `todos` and `nextId`. */
  class TodoStore {
    var todos: seq<Todo>
    var nextId: int

    ghost predicate Valid()
      reads this
    {
      StoreInvariant(todos, nextId)
    }

    constructor ()
      ensures todos == InitialTodos() && nextId == InitialNextId
      ensures Valid()
    {
      todos := InitialTodos();
      nextId := InitialNextId;
    }

    /** `GET`: the whole table, in insertion order, with status 200. */
    method Get() returns (resp: Response<ResponseBody>)
      ensures resp.status == 200 && resp.body == TodoList(todos)
    {
      resp := Response(200, TodoList(todos));
    }

    /** `POST`: on a rejected body, a 400 with the message and no change; on an
        accepted one, the trimmed title is appended under the old counter value
        with `completed` false, the counter moves on by one, and the new record
        comes back with status 201. Any `completed` in the body is ignored. */
    method Post(body: RequestBody) returns (resp: Response<ResponseBody>)
      requires Valid()
      modifies this
      ensures Valid()
      ensures match AcceptedTitle(body)
        case Failure(e) =>
          && todos == old(todos) && nextId == old(nextId)
          && resp == Response(400, ErrorMessage(e))
        case Success(t) =>
          var created := Todo(old(nextId), Trim(t), false);
          && todos == old(todos) + [created] && nextId == old(nextId) + 1
          && resp == Response(201, TodoRecord(created))
    {
      var title := AcceptedTitle(body);
      if title.Failure? {
        return Response(400, ErrorMessage(title.error));
      }
      var newTodo := Todo(nextId, Trim(title.value), false);
      nextId := nextId + 1;
      todos := todos + [newTodo];
      resp := Response(201, TodoRecord(newTodo));
    }
  }

  /** The ids of a table that keeps the invariant are unique, and the counter
      is not among them. */
  lemma InvariantGivesFreshId(todos: seq<Todo>, nextId: int)
    requires StoreInvariant(todos, nextId)
    ensures IdsUnique(todos)
    ensures forall i :: 0 <= i < |todos| ==> todos[i].id != nextId
  {
  }

  /** The starting table keeps the invariant. */
  lemma InitialStoreValid()
    ensures StoreInvariant(InitialTodos(), InitialNextId)
    ensures IdsUnique(InitialTodos())
  {
  }

  /** Appending a record under the counter and moving the counter on keeps
      the invariant: this is the step `POST` takes. */
  lemma AppendKeepsInvariant(todos: seq<Todo>, nextId: int, title: string)
    requires StoreInvariant(todos, nextId)
    ensures StoreInvariant(todos + [Todo(nextId, title, false)], nextId + 1)
    ensures IdsUnique(todos + [Todo(nextId, title, false)])
  {
  }

  /** Missing, empty and non-string titles are all refused with the title
      message, whatever else the object holds. */
  lemma BadTitlesRefused(fields: map<string, JsonValue>)
    requires "title" !in fields || fields["title"] == JString("") || !fields["title"].JString?
    ensures AcceptedTitle(Parsed(JObject(fields))) == Failure(TitleError)
  {
  }

  /** The check runs before the trim: a title of white space only is accepted,
      and what gets stored is the empty string. */
  lemma BlankTitleStoredEmpty(t: string)
    requires t != [] && Blank(t)
    ensures AcceptedTitle(Parsed(JObject(map["title" := JString(t)]))) == Success(t)
    ensures Trim(t) == []
  {
  }

  /** A `completed` field in the body does not change what `POST` accepts. */
  lemma CompletedIgnored(fields: map<string, JsonValue>, c: JsonValue)
    ensures AcceptedTitle(Parsed(JObject(fields["completed" := c])))
         == AcceptedTitle(Parsed(JObject(fields)))
  {
  }
}
