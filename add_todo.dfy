/** The add-todo form: a one-field text buffer, a submit guard that sends
    only a non-blank trimmed title, and a buffer that is cleared only when the
    create succeeds. */
module AddTodo {
  import opened Base
  import opened Text
  import opened UseTodos

  /** The guard and payload of `handleSubmit`: a create with the trimmed title
      and `completed: false` when the buffer is not blank, nothing otherwise.
      The title sent is never empty. */
  function SubmitPayload(title: string): (r: Option<NewTodo>)
    ensures r.Some? <==> !Blank(title)
    ensures r.Some? ==> r.value.title == Trim(title) && r.value.title != [] && !r.value.completed
  {
    var trimmed := Trim(title);
    if trimmed != [] then Some(NewTodo(trimmed, false)) else None
  }

  /** The submit button is disabled exactly when a submit would send nothing
      or a create is already pending. */
  function SubmitDisabled(title: string, pending: bool): (r: bool)
    ensures r <==> SubmitPayload(title).None? || pending
  {
    Trim(title) == [] || pending
  }

  /** The text input is disabled while a create is pending. */
  predicate InputDisabled(pending: bool)
  {
    pending
  }

  class AddTodoForm {
    var title: string

    constructor ()
      ensures title == ""
    {
      title := "";
    }

    /** `onChange` of the input. */
    method ChangeText(value: string)
      modifies this
      ensures title == value
    {
      title := value;
    }

    /** `handleSubmit`: what is handed to the create mutation, if anything.
        The buffer is not touched here. */
    method Submit() returns (req: Option<NewTodo>)
      ensures req == SubmitPayload(title)
    {
      req := SubmitPayload(title);
    }

    /** The per-call `onSuccess` of `mutate`: the buffer is cleared on success
        and kept on failure. */
    method CreateSettled(succeeded: bool)
      modifies this
      ensures title == if succeeded then "" else old(title)
    {
      if succeeded {
        title := "";
      }
    }
  }

  /** A submit of the form carried through the create mutation. While a
      create is pending the input and the button are both disabled, so no
      submit happens; a blank buffer sends nothing and changes nothing;
      otherwise the create is sent, and only an ok response both clears the
      buffer and marks the list stale. */
  method SubmitForm<B>(form: AddTodoForm, cache: QueryCache, pending: bool, resp: Response<B>)
    returns (sent: Option<Request>)
    modifies form, cache`stale
    ensures sent.Some? <==> !pending && !Blank(old(form.title))
    ensures sent.Some? ==> sent.value == CreateTodoRequest(NewTodo(Trim(old(form.title)), false))
    ensures form.title == if sent.Some? && IsOk(resp.status) then "" else old(form.title)
    ensures cache.stale == (old(cache.stale) || (sent.Some? && IsOk(resp.status)))
  {
    if InputDisabled(pending) {
      return None;
    }
    var req := form.Submit();
    if req.None? {
      return None;
    }
    var request, result := cache.RunCreate(req.value, resp);
    sent := Some(request);
    form.CreateSettled(result.Success?);
  }
}
