/** One row of the list: the todo it shows, its local edit state
    (`isEditing`, `editTitle`), and the mutations its event handlers issue.
    A handler's side effect of calling `mutate` is returned as the request it
    would send. */
module TodoItem {
  import opened Base
  import opened Text
  import opened UseTodos

  datatype Key = Enter | Escape | OtherKey

  /** A request the row hands to the update or the delete mutation. */
  datatype ItemMutation = Update(patch: TodoPatch) | Remove(id: int)

  /** The row's buttons that can be disabled. */
  datatype Control = Checkbox | EditButton | DeleteButton

  /** The update the checkbox sends: the opposite completion flag, no title. */
  function TogglePatch(t: Todo): TodoPatch
  {
    TodoPatch(t.id, None, Some(!t.completed))
  }

  /** The guard and payload of `handleEdit`: an update with the trimmed title
      when the buffer holds something besides white space, nothing otherwise. */
  function CommitPatch(t: Todo, editTitle: string): (r: Option<TodoPatch>)
    ensures r.Some? <==> !Blank(editTitle)
    ensures r.Some? ==> && r.value.id == t.id && r.value.completed.None?
                        && r.value.title == Some(Trim(editTitle)) && Trim(editTitle) != []
  {
    var trimmed := Trim(editTitle);
    if trimmed != [] then Some(TodoPatch(t.id, Some(trimmed), None)) else None
  }

  /** The checkbox is disabled while an update is pending; the edit and
      delete buttons while either mutation is pending. */
  predicate ControlDisabled(c: Control, updatePending: bool, deletePending: bool)
  {
    match c
    case Checkbox => updatePending
    case EditButton => updatePending || deletePending
    case DeleteButton => updatePending || deletePending
  }

  class TodoItemView {
    var todo: Todo
    var isEditing: bool
    var editTitle: string

    constructor (t: Todo)
      ensures todo == t && !isEditing && editTitle == t.title
    {
      todo := t;
      isEditing := false;
      editTitle := t.title;
    }

    /** A re-render with fresh props for the same id (rows are keyed by id):
        the local edit state is kept. */
    method ReceiveProps(t: Todo)
      requires t.id == todo.id
      modifies this`todo
      ensures todo == t
    {
      todo := t;
    }

    /** `onChange` of the text input, which is rendered only in edit mode. */
    method ChangeText(value: string)
      requires isEditing
      modifies this`editTitle
      ensures editTitle == value
    {
      editTitle := value;
    }

    /** `onDoubleClick` of the title, which is rendered only out of edit mode. */
    method StartEditing()
      requires !isEditing
      modifies this`isEditing
      ensures isEditing
    {
      isEditing := true;
    }

    /** `handleToggleComplete`: one update carrying the flipped flag and no title. */
    method ToggleComplete() returns (m: ItemMutation)
      ensures m.Update? && m.patch.id == todo.id
      ensures m.patch.completed == Some(!todo.completed) && m.patch.title.None?
    {
      m := Update(TogglePatch(todo));
    }

    /** `handleEdit`, run on Enter and on blur: a non-blank buffer issues one
        update with its trimmed text and leaves edit mode; a blank one issues
        nothing and stays in edit mode. Both events belong to the text input,
        so they happen only in edit mode. */
    method CommitEdit() returns (m: Option<ItemMutation>)
      requires isEditing
      modifies this`isEditing
      ensures m.Some? <==> !Blank(editTitle)
      ensures m.Some? ==> m.value == Update(CommitPatch(todo, editTitle).value)
      ensures isEditing == m.None?
    {
      var p := CommitPatch(todo, editTitle);
      if p.Some? {
        m := Some(Update(p.value));
        isEditing := false;
      } else {
        m := None;
      }
    }

    /** `handleKeyPress`: Enter commits, Escape leaves edit mode and puts the
        todo's title back in the buffer, any other key does nothing. Keys reach
        the text input only in edit mode. */
    method KeyDown(key: Key) returns (m: Option<ItemMutation>)
      requires isEditing
      modifies this`isEditing, this`editTitle
      ensures key == Enter ==>
        && (m.Some? <==> !Blank(old(editTitle)))
        && (m.Some? ==> m.value == Update(CommitPatch(todo, old(editTitle)).value))
        && isEditing == m.None? && editTitle == old(editTitle)
      ensures key == Escape ==> m.None? && !isEditing && editTitle == todo.title
      ensures key == OtherKey ==> m.None? && isEditing == old(isEditing) && editTitle == old(editTitle)
    {
      match key
      case Enter => m := CommitEdit();
      case Escape =>
        isEditing := false;
        editTitle := todo.title;
        m := None;
      case OtherKey => m := None;
    }

    /** The edit/cancel button flips edit mode and leaves the buffer alone. */
    method ToggleEditing()
      modifies this`isEditing
      ensures isEditing == !old(isEditing)
    {
      isEditing := !isEditing;
    }

    /** `handleDelete`: a delete of this todo, only if the user confirmed. */
    method Delete(confirmed: bool) returns (m: Option<ItemMutation>)
      ensures m.Some? <==> confirmed
      ensures m.Some? ==> m.value == Remove(todo.id)
    {
      if confirmed {
        m := Some(Remove(todo.id));
      } else {
        m := None;
      }
    }

    /** A click on one of the row's controls: a disabled control delivers no
        event; an enabled one runs its handler. */
    method Click(c: Control, updatePending: bool, deletePending: bool, confirmed: bool)
      returns (m: Option<ItemMutation>)
      modifies this`isEditing
      ensures ControlDisabled(c, updatePending, deletePending) ==>
        m.None? && isEditing == old(isEditing)
      ensures !ControlDisabled(c, updatePending, deletePending) ==>
        match c
        case Checkbox => m == Some(Update(TogglePatch(todo))) && isEditing == old(isEditing)
        case EditButton => m.None? && isEditing == !old(isEditing)
        case DeleteButton =>
          m == (if confirmed then Some(Remove(todo.id)) else None) && isEditing == old(isEditing)
    {
      if ControlDisabled(c, updatePending, deletePending) {
        return None;
      }
      match c
      case Checkbox =>
        var u := ToggleComplete();
        m := Some(u);
      case EditButton =>
        ToggleEditing();
        m := None;
      case DeleteButton =>
        m := Delete(confirmed);
    }
  }

  /** The checkbox's update, applied to a cached list holding the row's todo,
      flips that record's flag and leaves its title alone. */
  lemma ToggleFlipsCachedRecord(s: seq<Todo>, t: Todo, i: int)
    requires 0 <= i < |s| && s[i] == t
    ensures PatchList(s, TogglePatch(t))[i] == t.(completed := !t.completed)
  {
  }

  /** A committed edit, applied to a cached list holding the row's todo,
      renames that record to the trimmed buffer and keeps its flag. */
  lemma CommitRenamesCachedRecord(s: seq<Todo>, t: Todo, editTitle: string, i: int)
    requires 0 <= i < |s| && s[i] == t && !Blank(editTitle)
    ensures PatchList(s, CommitPatch(t, editTitle).value)[i] == t.(title := Trim(editTitle))
  {
  }

  /** While an update is pending, nothing on the row except the text input
      can issue a mutation. */
  lemma UpdatePendingBlocksControls(c: Control, deletePending: bool)
    ensures ControlDisabled(c, true, deletePending)
  {
  }
}
