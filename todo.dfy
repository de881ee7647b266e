/**
 * The checklist screen (`Todo`): a list of todo items kept in the
 * "todoList" collection, an edit modal with one text field, a record
 * selected through the Edit/Delete/Cancel menu, and a toast for a
 * rejected save.
 */
module TodoScreen {
  import opened Wrappers
  import opened Toasts
  import opened Seqs
  import opened Strings
  import opened Storage

  datatype TodoItem = TodoItem(id: int, text: string, state: bool)

  /** The id given to the first todo of an empty list. */
  const BaselineId := 1000

  /** The toast shown when the trimmed draft is empty. */
  const EmptyTextMessage := "内容不可为空"

  /** Every stored todo carries the id it is stored under. */
  ghost predicate IdsMatch(records: map<int, TodoItem>)
  {
    forall id :: id in records ==> records[id].id == id
  }

  /** `generateId`: one more than the id of the first displayed todo, or the baseline. */
  function GenerateId(todoData: seq<TodoItem>): int
  {
    if |todoData| > 0 then todoData[0].id + 1 else BaselineId
  }

  /**
   * What `saveTodo` makes of the draft: a rejection with the toast text when
   * the draft is only white space, otherwise the record it writes, under the
   * selected todo's id or a newly generated one.
   */
  function PrepareTodo(draft: string, current: Option<TodoItem>, todoData: seq<TodoItem>): (r: Result<TodoItem, string>)
    ensures r.Failure? <==> AllSpace(draft)
    ensures r.Failure? ==> r.error == EmptyTextMessage
    ensures r.Success? ==> r.value.text == Trim(draft) && r.value.text != [] && !r.value.state
    ensures r.Success? && current.Some? ==> r.value.id == current.value.id
    ensures r.Success? && current.None? ==> r.value.id == GenerateId(todoData)
  {
    var text := Trim(draft);
    if text == [] then Failure(EmptyTextMessage)
    else
      var id := if current.Some? then current.value.id else GenerateId(todoData);
      Success(TodoItem(id, text, false))
  }

  /** A displayed todo (the store's list reversed) is the stored record under its id. */
  lemma ShownIsStored(ids: seq<int>, records: map<int, TodoItem>, item: TodoItem)
    requires Indexes(ids, records) && IdsMatch(records)
    requires item in Reversed(ListOf(ids, records))
    ensures item.id in records && records[item.id] == item
  {
    var listed := ListOf(ids, records);
    var shown := Reversed(listed);
    var i :| 0 <= i < |shown| && shown[i] == item;
    var j := |ids| - 1 - i;
    assert item == listed[j];
    assert listed[j] == records[ids[j]];
    assert ids[j] in records;
  }

  /**
   * When ids were written in ascending order and the display is the store's
   * list reversed, the generated id exceeds every stored id, so a new todo
   * never lands on an existing one.
   */
  lemma GeneratedIdIsFresh(ids: seq<int>, records: map<int, TodoItem>)
    requires Indexes(ids, records) && IdsMatch(records) && Ascending(ids)
    ensures forall id :: id in records ==> id < GenerateId(Reversed(ListOf(ids, records)))
  {
    var shown := Reversed(ListOf(ids, records));
    if |ids| > 0 {
      assert shown[0] == records[ids[|ids| - 1]];
      forall id | id in records ensures id < GenerateId(shown) {
        LastIsLargest(ids, id);
      }
    }
  }

  /**
   * Flipping a displayed todo's done flag rewrites a stored record: the id
   * set, and so the number of todos, stays the same.
   */
  lemma FlipKeepsIds(ids: seq<int>, records: map<int, TodoItem>, item: TodoItem)
    requires Indexes(ids, records) && IdsMatch(records)
    requires item in Reversed(ListOf(ids, records))
    ensures item.id in records
    ensures records[item.id := item.(state := !item.state)].Keys == records.Keys
    ensures |records[item.id := item.(state := !item.state)]| == |records|
  {
    ShownIsStored(ids, records, item);
    assert records[item.id := item.(state := !item.state)].Keys == records.Keys;
  }

  /**
   * Writing under the selected todo's id or a generated one keeps the store's
   * ids ascending: a selected id is already stored, a generated one is fresh
   * and larger than all of them.
   */
  lemma WriteKeepsAscending(ids: seq<int>, records: map<int, TodoItem>, todoData: seq<TodoItem>,
                            current: Option<TodoItem>, id: int)
    requires Indexes(ids, records) && IdsMatch(records) && Ascending(ids)
    requires todoData == Reversed(ListOf(ids, records))
    requires current.Some? ==> current.value.id in records
    requires id == if current.Some? then current.value.id else GenerateId(todoData)
    ensures id in records <==> current.Some?
    ensures Ascending(if id in records then ids else ids + [id])
  {
    if current.None? {
      GeneratedIdIsFresh(ids, records);
      AppendLargerKeepsAscending(ids, id);
    }
  }

  /**
   * Editing a saved todo and saving it without touching the draft rewrites
   * the same id with the same text, but always as not done.
   */
  lemma EditThenSaveClearsDone(item: TodoItem, todoData: seq<TodoItem>)
    requires item.text != [] && !IsSpace(item.text[0]) && !IsSpace(item.text[|item.text| - 1])
    ensures PrepareTodo(item.text, Some(item), todoData) == Success(item.(state := false))
  {
    TrimUnpadded(item.text);
  }

  class Todo {
    var todoData: seq<TodoItem>
    var text: string
    var isModalShown: bool
    var toast: Option<Toast>
    /** The todo chosen through the item menu, `undefined` when none. */
    var current: Option<TodoItem>
    const store: Collection<TodoItem>

    ghost predicate Valid()
      reads store
    {
      store.Valid() && IdsMatch(store.records)
    }

    /** The list a refresh displays: the store's list reversed, or nothing when the read fails. */
    ghost function Refreshed(readOk: bool): seq<TodoItem>
      reads store
      requires Valid()
    {
      if readOk then Reversed(store.SelectList()) else []
    }

    /**
     * The display shows the store, ids sit in the store in ascending order,
     * and a selected todo is stored.
     */
    ghost predicate InSync()
      reads this, store
      requires Valid()
    {
      && todoData == Reversed(store.SelectList())
      && Ascending(store.ids)
      && (current.Some? ==> current.value.id in store.records)
    }

    constructor (store: Collection<TodoItem>)
      requires store.Valid() && IdsMatch(store.records)
      ensures Valid() && this.store == store
      ensures todoData == [] && text == [] && !isModalShown && toast == None && current == None
    {
      this.store := store;
      todoData, text, isModalShown := [], [], false;
      toast, current := None, None;
    }

    /** `initTodoList`: reload the display from the store, failing open to an empty list. */
    method InitTodoList(readOk: bool)
      requires Valid()
      modifies this`todoData
      ensures todoData == Refreshed(readOk)
    {
      if readOk {
        var todoList := store.SelectList();
        todoData := if |todoList| > 0 then Reversed(todoList) else [];
      } else {
        todoData := [];
      }
    }

    /** `handleCheckChange`: rewrite the todo with its done flag flipped, then refresh. */
    method HandleCheckChange(item: TodoItem, readOk: bool)
      requires Valid()
      modifies this`todoData, store
      ensures Valid()
      ensures store.records == old(store.records)[item.id := item.(state := !item.state)]
      ensures store.ids == if item.id in old(store.records) then old(store.ids) else old(store.ids) + [item.id]
      ensures todoData == Refreshed(readOk)
      ensures old(InSync()) && item in old(todoData) ==> |store.records| == |old(store.records)|
      ensures old(InSync()) && item in old(todoData) && readOk ==> InSync()
    {
      if InSync() && item in todoData {
        FlipKeepsIds(store.ids, store.records, item);
      }
      var data := TodoItem(item.id, item.text, !item.state);
      store.Add(item.id, data);
      InitTodoList(readOk);
    }

    /** `showItemOptions`: select a displayed todo before the menu opens. */
    method ShowItemOptions(item: TodoItem)
      requires Valid()
      modifies this`current
      ensures current == Some(item)
      ensures old(InSync()) && item in todoData ==> InSync()
    {
      if InSync() && item in todoData {
        ShownIsStored(store.ids, store.records, item);
      }
      current := Some(item);
    }

    /** `changeModal`: toggle the modal; closing it also clears the form. */
    method ChangeModal()
      modifies this`text, this`current, this`isModalShown
      ensures isModalShown == !old(isModalShown)
      ensures old(isModalShown) ==> text == [] && current == None
      ensures !old(isModalShown) ==> text == old(text) && current == old(current)
    {
      if isModalShown {
        ClearForm();
      }
      isModalShown := !isModalShown;
    }

    /** `clearForm`: empty the draft and drop the selection. */
    method ClearForm()
      modifies this`text, this`current
      ensures text == [] && current == None
    {
      text := [];
      current := None;
    }

    /** `deleteItem`: remove the selected todo, refresh and drop the selection. */
    method DeleteItem(readOk: bool)
      requires Valid()
      modifies this`todoData, this`current, store
      ensures Valid()
      ensures old(current) == None ==> unchanged(store) && todoData == old(todoData) && current == None
      ensures old(current).Some? ==>
        && store.records == old(store.records) - {old(current).value.id}
        && store.ids == Without(old(store.ids), old(current).value.id)
        && todoData == Refreshed(readOk)
        && current == None
      ensures old(InSync()) && old(current).Some? ==> |store.records| == |old(store.records)| - 1
      ensures old(InSync()) && (old(current).Some? ==> readOk) ==> InSync()
    {
      if current == None {
        return;
      }
      store.Delete(current.value.id);
      InitTodoList(readOk);
      current := None;
    }

    /** `selectSheet`: the Edit (0), Delete (1) and Cancel (2) entries of the item menu. */
    method SelectSheet(index: int, readOk: bool)
      requires Valid()
      modifies this, store
      ensures Valid()
      ensures toast == old(toast)
      ensures old(current) == None || index !in {0, 1, 2} ==> unchanged(this, store)
      ensures old(current).Some? && index == 0 ==>
        && unchanged(store) && todoData == old(todoData)
        && isModalShown == !old(isModalShown)
        && (if old(isModalShown) then text == [] && current == None
            else text == old(current).value.text && current == old(current))
      ensures old(current).Some? && index == 1 ==>
        && store.records == old(store.records) - {old(current).value.id}
        && store.ids == Without(old(store.ids), old(current).value.id)
        && todoData == Refreshed(readOk) && current == None
        && text == old(text) && isModalShown == old(isModalShown)
      ensures old(current).Some? && index == 2 ==>
        && unchanged(store) && todoData == old(todoData) && current == None
        && text == old(text) && isModalShown == old(isModalShown)
      ensures old(InSync()) && (index == 1 ==> readOk) ==> InSync()
    {
      if current == None {
        return;
      }
      match index
      case 0 =>
        text := current.value.text;
        ChangeModal();
      case 1 =>
        DeleteItem(readOk);
      case 2 =>
        current := None;
      case _ =>
    }

    /** `makeToast`: show `message` for the toast duration. */
    method MakeToast(message: string)
      modifies this`toast
      ensures toast == Some(Toast(message, ToastDuration))
    {
      toast := Some(Toast(message, ToastDuration));
    }

    /**
     * `saveTodo`: reject a blank draft with a toast; otherwise write the todo
     * (over the selected one, or under a generated id), refresh, toggle the
     * modal and drop the selection.
     */
    method SaveTodo(readOk: bool)
      requires Valid()
      modifies this, store
      ensures Valid()
      ensures var r := PrepareTodo(old(text), old(current), old(todoData));
        if r.Failure? then
          && toast == Some(Toast(r.error, ToastDuration))
          && unchanged(store) && todoData == old(todoData) && text == old(text)
          && isModalShown == old(isModalShown) && current == old(current)
        else
          && store.records == old(store.records)[r.value.id := r.value]
          && store.ids == (if r.value.id in old(store.records) then old(store.ids) else old(store.ids) + [r.value.id])
          && todoData == Refreshed(readOk)
          && isModalShown == !old(isModalShown)
          && text == (if old(isModalShown) then [] else old(text))
          && current == None && toast == old(toast)
          && (old(InSync()) ==> |store.records| == |old(store.records)| + (if old(current).Some? then 0 else 1))
      ensures old(InSync()) && readOk ==> InSync()
    {
      var r := PrepareTodo(text, current, todoData);
      if r.Failure? {
        MakeToast(r.error);
        return;
      }
      Write(r.value, readOk);
    }

    /** The write half of `saveTodo`, once the draft has passed its check. */
    method Write(item: TodoItem, readOk: bool)
      requires Valid()
      requires item.id == if current.Some? then current.value.id else GenerateId(todoData)
      modifies this`todoData, this`text, this`current, this`isModalShown, store
      ensures Valid()
      ensures store.records == old(store.records)[item.id := item]
      ensures store.ids == if item.id in old(store.records) then old(store.ids) else old(store.ids) + [item.id]
      ensures todoData == Refreshed(readOk)
      ensures isModalShown == !old(isModalShown)
      ensures text == if old(isModalShown) then [] else old(text)
      ensures current == None
      ensures old(InSync()) ==> |store.records| == |old(store.records)| + (if old(current).Some? then 0 else 1)
      ensures old(InSync()) && readOk ==> InSync()
    {
      if InSync() {
        WriteKeepsAscending(store.ids, store.records, todoData, current, item.id);
      }
      store.Add(item.id, item);
      InitTodoList(readOk);
      ChangeModal();
      current := None;
    }
  }
}

/** Runs of the checklist screen's handlers on a concrete store. */
module TodoScenarios {
  import opened Wrappers
  import opened Strings
  import opened Storage
  import opened TodoScreen

  /**
   * A failed refresh resets the id counter: with a todo stored under 1000, a
   * refresh whose read fails empties the display, and the next new todo is
   * written over the stored one instead of beside it, leaving one todo.
   */
  method FailedRefreshOverwritesBaseline() returns (before: TodoItem, after: TodoItem, count: nat)
    ensures before.id == BaselineId && after.id == BaselineId && before != after
    ensures count == 1
  {
    var store := new Collection<TodoItem>();
    before := TodoItem(BaselineId, "buy milk", true);
    store.Add(BaselineId, before);
    var todo := new Todo(store);
    todo.InitTodoList(false);
    assert todo.todoData == [] && todo.current == None;
    todo.text := "call home";
    assert !IsSpace(todo.text[0]);
    ghost var r := PrepareTodo(todo.text, todo.current, todo.todoData);
    assert r.Success? && r.value.id == BaselineId && !r.value.state;
    ghost var stored := store.records;
    assert BaselineId in stored && |stored| == 1;
    todo.SaveTodo(true);
    assert store.records == stored[BaselineId := r.value];
    after := store.records[BaselineId];
    count := |store.records|;
  }
}
