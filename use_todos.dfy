/** The client data layer: the fetch wrappers (request shaping and the
    reduction of a failed response to a fixed message), the optimistic patch
    of the cached list, and the query cache that the create, update and delete
    mutations change through their callbacks. */
module UseTodos {
  import opened Base

  /** `Partial<Todo> & { id: number }`: the id, plus each other field only if present. */
  datatype TodoPatch = TodoPatch(id: int, title: Option<string>, completed: Option<bool>)

  /** `Omit<Todo, 'id'>`: what a create sends. */
  datatype NewTodo = NewTodo(title: string, completed: bool)

  // ---------------------------------------------------------------------------
  // Request shaping

  datatype HttpMethod = GET | POST | PUT | DELETE

  /** A JSON request body as the wrappers serialise it; an absent field of an
      update is left out of the object. */
  datatype Payload =
    | NoPayload
    | CreatePayload(todo: NewTodo)
    | UpdatePayload(title: Option<string>, completed: Option<bool>)

  datatype Request = Request(verb: HttpMethod, path: string, payload: Payload)

  const CollectionPath: string := "/api/todos"

  function DigitChar(d: nat): char
    requires d < 10
  {
    "0123456789"[d]
  }

  predicate IsDigit(c: char)
  {
    '0' <= c <= '9'
  }

  /** Decimal notation of a natural number, most significant digit first. */
  function Decimal(n: nat): (r: string)
    ensures r != [] && forall k :: 0 <= k < |r| ==> IsDigit(r[k])
  {
    if n < 10 then [DigitChar(n)] else Decimal(n / 10) + [DigitChar(n % 10)]
  }

  /** The value of a string of decimal digits. */
  function DecimalValue(s: string): nat
    requires forall k :: 0 <= k < |s| ==> IsDigit(s[k])
  {
    if s == [] then 0
    else
      var last := s[|s| - 1];
      assert IsDigit(last);
      DecimalValue(s[..|s| - 1]) * 10 + (last as int - '0' as int)
  }

  /** `${id}` for an integral number. */
  function IntToString(i: int): string
  {
    if i < 0 then "-" + Decimal(-i) else Decimal(i)
  }

  /** `/api/todos/${id}`. */
  function ItemPath(id: int): string
  {
    CollectionPath + "/" + IntToString(id)
  }

  /** Reads the id back out of an item path: the inverse of `ItemPath`. */
  function ItemPathId(path: string): Option<int>
  {
    var prefix := CollectionPath + "/";
    if |path| <= |prefix| || path[..|prefix|] != prefix then None
    else
      var rest := path[|prefix|..];
      if rest[0] == '-' then
        var digits := rest[1..];
        if digits != [] && forall k :: 0 <= k < |digits| ==> IsDigit(digits[k])
        then var v: int := DecimalValue(digits); Some(-v) else None
      else if forall k :: 0 <= k < |rest| ==> IsDigit(rest[k])
      then Some(DecimalValue(rest)) else None
  }

  /** `fetchTodos`: `GET /api/todos`. */
  function FetchTodosRequest(): Request
  {
    Request(GET, CollectionPath, NoPayload)
  }

  /** `createTodo`: `POST /api/todos` with the whole new todo as the body. */
  function CreateTodoRequest(t: NewTodo): Request
  {
    Request(POST, CollectionPath, CreatePayload(t))
  }

  /** `updateTodo({ id, ...todo })`: the id goes into the path, the rest into the body. */
  function UpdateTodoRequest(p: TodoPatch): Request
  {
    Request(PUT, ItemPath(p.id), UpdatePayload(p.title, p.completed))
  }

  /** `deleteTodo(id)`: `DELETE /api/todos/${id}`, no body. */
  function DeleteTodoRequest(id: int): Request
  {
    Request(DELETE, ItemPath(id), NoPayload)
  }

  /** What a receiver recovers from an update request: the id from the path
      and the fields from the body. */
  function PatchOfRequest(r: Request): Option<TodoPatch>
  {
    if r.verb != PUT || !r.payload.UpdatePayload? then None
    else match ItemPathId(r.path)
      case None => None
      case Some(id) => Some(TodoPatch(id, r.payload.title, r.payload.completed))
  }

  lemma {:induction false} DecimalRoundTrip(n: nat)
    ensures DecimalValue(Decimal(n)) == n
  {
    var s := Decimal(n);
    if n >= 10 {
      DecimalRoundTrip(n / 10);
      assert s[..|s| - 1] == Decimal(n / 10);
    }
  }

  /** The path of an item names exactly that item. */
  lemma ItemPathRoundTrip(id: int)
    ensures ItemPathId(ItemPath(id)) == Some(id)
  {
    var prefix := CollectionPath + "/";
    var path := ItemPath(id);
    assert path[..|prefix|] == prefix;
    var rest := path[|prefix|..];
    assert rest == IntToString(id);
    if id < 0 {
      assert rest[1..] == Decimal(-id);
      DecimalRoundTrip(-id);
    } else {
      assert rest[0] != '-' by { assert IsDigit(Decimal(id)[0]); }
      DecimalRoundTrip(id);
    }
  }

  /** An update request carries the whole patch: its id in the path, its
      fields in the body, and nothing else. */
  lemma UpdateRequestRoundTrip(p: TodoPatch)
    ensures PatchOfRequest(UpdateTodoRequest(p)) == Some(p)
  {
    ItemPathRoundTrip(p.id);
  }

  /** A delete request carries no body and names its todo in the path. */
  lemma DeleteRequestNamesItem(id: int)
    ensures DeleteTodoRequest(id).verb == DELETE && DeleteTodoRequest(id).payload.NoPayload?
    ensures ItemPathId(DeleteTodoRequest(id).path) == Some(id)
  {
    ItemPathRoundTrip(id);
  }

  /** Update and delete requests for different todos go to different paths. */
  lemma ItemPathInjective(a: int, b: int)
    requires a != b
    ensures ItemPath(a) != ItemPath(b)
  {
    ItemPathRoundTrip(a);
    ItemPathRoundTrip(b);
  }

  // ---------------------------------------------------------------------------
  // Response mapping

  datatype Operation = FetchTodos | CreateTodo | UpdateTodo | DeleteTodo

  /** The fixed message each wrapper throws on a response that is not ok. */
  function FailureMessage(op: Operation): string
  {
    match op
    case FetchTodos => "Failed to fetch todos"
    case CreateTodo => "Failed to create todo"
    case UpdateTodo => "Failed to update todo"
    case DeleteTodo => "Failed to delete todo"
  }

  /** `if (!response.ok) throw new Error(...); return response.json()`. */
  function CheckResponse<B>(op: Operation, resp: Response<B>): (r: Result<B, string>)
    ensures r.Success? <==> IsOk(resp.status)
    ensures r.Success? ==> r.value == resp.body
    ensures r.Failure? ==> r.error == FailureMessage(op)
  {
    if !IsOk(resp.status) then Failure(FailureMessage(op)) else Success(resp.body)
  }

  /** A failed response's body never reaches the caller: any two failures of
      one operation look the same, whatever their status or body. */
  lemma FailureDiscardsBody<B>(op: Operation, a: Response<B>, b: Response<B>)
    requires !IsOk(a.status) && !IsOk(b.status)
    ensures CheckResponse(op, a) == CheckResponse(op, b)
  {
  }

  /** The message tells the operations apart. */
  lemma FailureMessagesDistinct(op1: Operation, op2: Operation)
    requires op1 != op2
    ensures FailureMessage(op1) != FailureMessage(op2)
  {
  }

  // ---------------------------------------------------------------------------
  // The optimistic patch

  /** `{ ...todo, ...patch }`: the patch's fields win where present. */
  function Merge(t: Todo, p: TodoPatch): Todo
  {
    Todo(p.id, p.title.GetOr(t.title), p.completed.GetOr(t.completed))
  }

  /** `old.map(todo => todo.id === patch.id ? { ...todo, ...patch } : todo)`. */
  function PatchList(s: seq<Todo>, p: TodoPatch): (r: seq<Todo>)
    ensures |r| == |s|
    ensures forall i :: 0 <= i < |s| ==> r[i].id == s[i].id
    ensures forall i :: 0 <= i < |s| && s[i].id != p.id ==> r[i] == s[i]
    ensures forall i :: 0 <= i < |s| && s[i].id == p.id ==> r[i] == Merge(s[i], p)
  {
    if s == [] then []
    else [if s[0].id == p.id then Merge(s[0], p) else s[0]] + PatchList(s[1..], p)
  }

  /** The updater given to `setQueryData`: `old?.map(...)`. */
  function OptimisticPatch(cache: Option<seq<Todo>>, p: TodoPatch): Option<seq<Todo>>
  {
    match cache
    case None => None
    case Some(s) => Some(PatchList(s, p))
  }

  /** `onError`: the snapshot is written back whenever there is one (an empty
      array is truthy); with no snapshot the cache is left as it is. */
  function Rollback(current: Option<seq<Todo>>, previous: Option<seq<Todo>>): Option<seq<Todo>>
  {
    if previous.Some? then previous else current
  }

  /** In a record the patch targets, a field the patch supplies is overwritten
      and a field it leaves out keeps its value. */
  lemma PatchedRecordFields(s: seq<Todo>, p: TodoPatch, i: int)
    requires 0 <= i < |s| && s[i].id == p.id
    ensures var r := PatchList(s, p)[i];
      && r.id == s[i].id
      && (p.title.Some? ==> r.title == p.title.value)
      && (p.title.None? ==> r.title == s[i].title)
      && (p.completed.Some? ==> r.completed == p.completed.value)
      && (p.completed.None? ==> r.completed == s[i].completed)
  {
  }

  /** A patch whose id is in no record leaves the list as it is. */
  lemma PatchOfAbsentId(s: seq<Todo>, p: TodoPatch)
    requires forall i :: 0 <= i < |s| ==> s[i].id != p.id
    ensures PatchList(s, p) == s
  {
  }

  /** Applying a patch twice gives what applying it once gives. */
  lemma PatchIdempotent(s: seq<Todo>, p: TodoPatch)
    ensures PatchList(PatchList(s, p), p) == PatchList(s, p)
  {
  }

  /** An empty cache stays empty, a present one keeps its length, and the
      patch is idempotent on the cache as a whole. */
  lemma OptimisticPatchShape(cache: Option<seq<Todo>>, p: TodoPatch)
    ensures OptimisticPatch(cache, p).None? <==> cache.None?
    ensures cache.Some? ==> |OptimisticPatch(cache, p).value| == |cache.value|
    ensures OptimisticPatch(OptimisticPatch(cache, p), p) == OptimisticPatch(cache, p)
  {
    if cache.Some? { PatchIdempotent(cache.value, p); }
  }

  /** The rollback after a failed update restores exactly the cache as it
      was before the optimistic patch. */
  lemma RollbackRestoresSnapshot(cache: Option<seq<Todo>>, p: TodoPatch)
    ensures Rollback(OptimisticPatch(cache, p), cache) == cache
  {
  }

  // ---------------------------------------------------------------------------
  // The query cache

  /** The `['todos']` entry of the query client: the cached list (undefined
      until a fetch has filled it) and whether it has been invalidated. */
  class QueryCache {
    var data: Option<seq<Todo>>
    var stale: bool

    constructor ()
      ensures data == None && !stale
    {
      data := None;
      stale := false;
    }

    /** `invalidateQueries({ queryKey: ['todos'] })`. */
    method Invalidate()
      modifies this`stale
      ensures stale
    {
      stale := true;
    }

    /** `onMutate` of the update: snapshot the list, then patch it in place. */
    method OnMutateUpdate(p: TodoPatch) returns (previous: Option<seq<Todo>>)
      modifies this`data
      ensures previous == old(data)
      ensures data == OptimisticPatch(old(data), p)
    {
      previous := data;
      data := OptimisticPatch(data, p);
    }

    /** `onError` of the update: put the snapshot back if there is one. */
    method OnErrorUpdate(previous: Option<seq<Todo>>)
      modifies this`data
      ensures data == Rollback(old(data), previous)
    {
      if previous.Some? {
        data := previous;
      }
    }

    /** One update mutation from start to settle: the request is sent, the
        list is patched optimistically, a failure restores it exactly, and
        the list is marked stale whatever the outcome. */
    method RunUpdate<B>(p: TodoPatch, resp: Response<B>) returns (sent: Request, r: Result<B, string>)
      modifies this
      ensures sent == UpdateTodoRequest(p) && PatchOfRequest(sent) == Some(p)
      ensures r == CheckResponse(UpdateTodo, resp)
      ensures data == if r.Success? then OptimisticPatch(old(data), p) else old(data)
      ensures stale
    {
      var previous := OnMutateUpdate(p);
      sent := UpdateTodoRequest(p);
      UpdateRequestRoundTrip(p);
      r := CheckResponse(UpdateTodo, resp);
      if r.Failure? {
        OnErrorUpdate(previous);
        RollbackRestoresSnapshot(old(data), p);
      }
      Invalidate();
    }

    /** One create mutation: no optimistic insert; the list is marked stale
        only when the create succeeded. */
    method RunCreate<B>(t: NewTodo, resp: Response<B>) returns (sent: Request, r: Result<B, string>)
      modifies this`stale
      ensures sent == CreateTodoRequest(t)
      ensures r == CheckResponse(CreateTodo, resp)
      ensures stale == (old(stale) || r.Success?)
    {
      sent := CreateTodoRequest(t);
      r := CheckResponse(CreateTodo, resp);
      if r.Success? {
        Invalidate();
      }
    }

    /** One delete mutation: no optimistic removal; the list is marked stale
        only when the delete succeeded. */
    method RunDelete<B>(id: int, resp: Response<B>) returns (sent: Request, r: Result<B, string>)
      modifies this`stale
      ensures sent == DeleteTodoRequest(id)
      ensures r == CheckResponse(DeleteTodo, resp)
      ensures stale == (old(stale) || r.Success?)
    {
      sent := DeleteTodoRequest(id);
      r := CheckResponse(DeleteTodo, resp);
      if r.Success? {
        Invalidate();
      }
    }
  }
}
