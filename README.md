# TodoBill screen controllers in Dafny

TodoBill is a React Native app with two screens. The checklist screen (`Todo`) keeps todo items in the
"todoList" collection. The ledger screen (`Bill`) keeps income and expense bills in the
"billList" collection. Each screen is a small sequential state machine over the same pieces of state:

- the displayed list (`todoData` / `billData`);
- the modal flag (`isModalShown`);
- the draft form: `text`, or `type`, `date`, `time`, `count` and `text`;
- the record selected through the Edit/Delete/Cancel menu (`current`);
- a toast.

Both screens work against a keyed record store. This project models that state and its handlers:
list refresh, check toggling, selection, modal toggle, form reset, delete, the menu, the toast and
save. It also models the pure pieces the handlers rely on: id generation, draft validation, the
bill payload, and the inverse mapping the Edit entry uses.

Files:

- `wrappers.dfy`: `Option`, `Result` and the toast value (duration 1000 ms).
- `seqs.dfy`: reversal, as `Array.prototype.reverse` leaves a list, and ascending order.
- `strings.dfy`: JavaScript `trim` (the full ECMAScript white-space and line-terminator set),
  `split` on one character, and decimal digit strings.
- `storage.dfy`: the store, as a class `Collection<R>`. It has an `ids` sequence, which is the
  backend's order, and a `records` map.
  - `add` overwrites the record under an id. A new id is appended to the order; an overwritten id
    keeps its place.
  - `delete` removes the id and splices it out of the order.
  - `selectList` returns the records in that order.

  The order mirrors the per-key id list of react-native-storage. That library is not part of this
  model, so the order is an assumption about it.
- `todo.dfy`: the `Todo` class and its pure helpers.
- `bill.dfy`: the `Bill` class and its pure helpers.

Every handler that refreshes the list takes a `readOk` flag. It stands for whether
`storage.selectList` succeeded. On failure the display becomes empty, as the `catch` branches do.
The clock reads that fill the bill form's date and time become a `now` parameter.

The main invariant is `InSync`. It has three parts:

- the display is the store's list reversed;
- the store's ids are ascending in store order;
- a selected record is stored.

Every handler that refreshes keeps `InSync` when its refresh succeeds; the check toggle and the
selection keep it for a displayed record; the modal toggle, the form reset and the toast do not
touch the state `InSync` reads. Under `InSync`, `generateId` (the first
displayed id plus one) is larger than every stored id (`GeneratedIdIsFresh`). So a save without a
selection creates a record, and a save with one overwrites it.

The source does not guard against a failed refresh. After one, the display is empty and
`generateId` gives 1000 again, so the next new record overwrites any stored record 1000. The
per-handler contracts state that behaviour, because their `InSync` clauses need `readOk`, and
`TodoScenarios.FailedRefreshOverwritesBaseline` runs it through the handlers: a todo stored under
1000, a refresh whose read fails, then a save that leaves one todo, the new one, under 1000.

The `Bill` class starts with the two placeholder bills that the source puts in its initial state
(src/Bill.js:68). Its first refresh replaces them.

The source multiplies the radio value (-1 or 1) by the parsed amount. `MakeBill` chooses the sign
by cases instead, and `SignedAmountIsProduct` proves that the two agree.

When a stored date has no space, the Edit entry reads a missing second part of `split(' ')`. The
model gives the time field the string "undefined", which is what the next save concatenates.

## Model

| member | source | states |
|---|---|---|
| Seqs.Reversed | src/Todo.js:75 | the refreshed list has the store list's length, with element i equal to the store's element from the end |
| Strings.Trim | src/Todo.js:167 | the trimmed draft is the draft's contiguous middle with only white space before and after it; it is empty exactly when the draft is all white space, and otherwise neither starts nor ends with white space |
| Strings.TrimIdempotent | src/Bill.js:209 | trimming an already trimmed text changes nothing, so a re-saved description stays the same |
| Strings.Split | src/Bill.js:153-154 | splitting a date on ' ' gives at least one part, no part holds a space, and joining the parts with ' ' gives the date back |
| Strings.SplitWithoutSeparator | src/Bill.js:153 | a date with no space splits into itself alone |
| Strings.SplitHead | src/Bill.js:153-154 | the first part of a split date runs to its first space (or is the whole date); a second part exists exactly when the date holds a space, and runs from there to the next space or the end |
| Strings.SplitPair | src/Bill.js:153-154 | a space-free date and time joined by ' ' split back into exactly those two parts |
| Strings.DecimalString | src/Bill.js:155 | the magnitude the Edit entry puts in the amount field is a non-empty string of digits, one digit exactly below 10, starting with '0' only for 0 itself |
| Strings.ParseDecimalString | src/Bill.js:200 | parsing the digits of a number gives back that number |
| Strings.TrimDecimal | src/Bill.js:195 | trimming a digit string leaves it unchanged |
| Storage.ListOf | src/storage.js:10 | the listed records follow the id order one for one, each the record stored under its id |
| Storage.Without | src/storage.js:9 | after a delete, the order holds exactly the other ids |
| Storage.WithoutAbsent | src/storage.js:9 | deleting an id that is not stored leaves the order as it was |
| Storage.WithoutKeepsOrder | src/storage.js:9 | deleting keeps the remaining ids distinct and ascending when they were |
| Storage.Collection.constructor | src/storage.js:7-11 | a new collection is empty and well formed |
| Storage.Collection.SelectList | src/storage.js:10 | `selectList` returns every stored record once, in the store's id order |
| Storage.Collection.Add | src/storage.js:8 | `add` overwrites the record under the id, appends a new id to the order and keeps an old id's place |
| Storage.Collection.Delete | src/storage.js:9 | `delete` removes exactly that id; an absent id changes nothing; ascending order is kept |
| TodoScreen.PrepareTodo | src/Todo.js:166-177 | a save is rejected with '内容不可为空' exactly when the draft is blank; otherwise the todo has the trimmed text, is not done, and takes the selected id or the generated one |
| TodoScreen.ShownIsStored | src/Todo.js:94-98 | while the display shows the store, a displayed todo is the stored record under its id |
| TodoScreen.GeneratedIdIsFresh | src/Todo.js:60-62 | with ids written in ascending order, the first displayed id plus one exceeds every stored id |
| TodoScreen.FlipKeepsIds | src/Todo.js:84-92 | flipping a displayed todo rewrites a stored id, so the id set and the todo count stay the same |
| TodoScreen.WriteKeepsAscending | src/Todo.js:172-178 | the id a save writes is already stored exactly when a todo is selected, and the store's ids stay ascending |
| TodoScreen.EditThenSaveClearsDone | src/Todo.js:166-177 | saving an edited todo without changing its text rewrites the same id and text with the done flag cleared |
| TodoScenarios.FailedRefreshOverwritesBaseline | src/Todo.js:60-82 | after a refresh whose read fails, saving a new todo writes it under 1000 over the todo already stored there, leaving one todo |
| TodoScreen.Todo.constructor | src/Todo.js:47-51 | the screen starts with an empty list, an empty draft, the modal closed, no toast and no selection |
| TodoScreen.Todo.InitTodoList | src/Todo.js:71-82 | after a refresh the display is the store's list reversed, or empty when the read fails |
| TodoScreen.Todo.HandleCheckChange | src/Todo.js:84-92 | the todo is rewritten under its id with the same text and the done flag negated; no other record changes; for a displayed todo the count stays the same and the display stays in sync |
| TodoScreen.Todo.ShowItemOptions | src/Todo.js:94-98 | the pressed todo becomes the selection; selecting a displayed todo keeps the screen in sync |
| TodoScreen.Todo.ChangeModal | src/Todo.js:100-107 | the modal flag flips; closing the modal empties the draft and drops the selection; opening it leaves both alone |
| TodoScreen.Todo.ClearForm | src/Todo.js:109-112 | the draft is empty and nothing is selected |
| TodoScreen.Todo.DeleteItem | src/Todo.js:114-121 | without a selection nothing changes; otherwise exactly the selected id leaves the store, the count drops by one, the list refreshes and the selection is dropped |
| TodoScreen.Todo.SelectSheet | src/Todo.js:123-141 | without a selection, or for an index other than 0, 1 and 2, nothing changes; Edit loads the selected text and toggles the modal; Delete deletes; Cancel only drops the selection |
| TodoScreen.Todo.MakeToast | src/Todo.js:143-160 | the toast shows the message for 1000 ms |
| TodoScreen.Todo.SaveTodo | src/Todo.js:166-182 | a blank draft sets the toast and changes nothing else; otherwise the todo is written over the selected one (count unchanged) or under a fresh id (count plus one), the list refreshes, the modal toggles and the selection is dropped |
| TodoScreen.Todo.Write | src/Todo.js:172-181 | the write half of a save: store update, refresh, modal toggle, no selection, and the screen stays in sync |
| BillScreen.ValidateAmount | src/Bill.js:195-203 | a blank amount is rejected as empty ('金额不可为空'); an amount that is not a positive digit string as invalid ('金额不合法'); otherwise the check yields the parsed positive amount |
| BillScreen.MakeBill | src/Bill.js:204-210 | the bill keeps the given id, its date is date plus ' ' plus time, its amount is nonzero with the validated magnitude, negative exactly for an expense, and its description is the trimmed text |
| BillScreen.SignedAmountIsProduct | src/Bill.js:208 | the stored amount is the type (-1 or 1) times the magnitude |
| BillScreen.PrepareBill | src/Bill.js:194-210 | a save fails exactly when the amount check fails, with its message; otherwise the bill takes the selected or generated id, the parsed magnitude with the type's sign, date plus ' ' plus time, and the trimmed text |
| BillScreen.EditForm | src/Bill.js:150-157 | the Edit entry picks expense exactly for an amount of at most 0, puts the magnitude's digits in the amount, the description in the text, the stored date up to its first space in the date, and the next space-separated part in the time; a date without a space gives the whole date and time "undefined" |
| BillScreen.EditedAmountValidates | src/Bill.js:155 | the amount the Edit entry fills in passes the check with the bill's magnitude, unless the amount is 0, which is rejected as invalid |
| BillScreen.EditInvertsSave | src/Bill.js:150-157 | for a space-free date and time, editing a saved bill recovers the type, the date, the time, the amount and the trimmed text |
| BillScreen.SaveAfterEditRewritesSame | src/Bill.js:204-210 | saving an edited bill without touching the form writes the same bill under the same id |
| BillScreen.ShownIsStored | src/Bill.js:108-112 | while the display shows the store, a displayed bill is the stored record under its id |
| BillScreen.GeneratedIdIsFresh | src/Bill.js:84-86 | with ids written in ascending order, the first displayed id plus one exceeds every stored id |
| BillScreen.WriteKeepsAscending | src/Bill.js:204-211 | the id a save writes is already stored exactly when a bill is selected, and the store's ids stay ascending |
| BillScreen.Bill.constructor | src/Bill.js:67-75 | the screen starts with the two placeholder bills, the modal closed, an expense form dated now with no amount or text, and no selection |
| BillScreen.Bill.InitBillList | src/Bill.js:95-106 | after a refresh the display is the store's list reversed, or empty when the read fails |
| BillScreen.Bill.ShowItemOptions | src/Bill.js:108-112 | the pressed bill becomes the selection; selecting a displayed bill keeps the screen in sync |
| BillScreen.Bill.ChangeModal | src/Bill.js:114-121 | the modal flag flips; closing the modal resets the form to an expense dated now and drops the selection; opening it leaves both alone |
| BillScreen.Bill.ClearForm | src/Bill.js:123-132 | the form is an expense dated now with an empty amount and text, and nothing is selected |
| BillScreen.Bill.DeleteItem | src/Bill.js:134-141 | without a selection nothing changes; otherwise exactly the selected id leaves the store, the count drops by one, the list refreshes and the selection is dropped |
| BillScreen.Bill.SelectSheet | src/Bill.js:143-169 | without a selection, or for an index other than 0, 1 and 2, nothing changes; Edit fills the form from the selected bill and toggles the modal; Delete deletes; Cancel only drops the selection |
| BillScreen.Bill.MakeToast | src/Bill.js:171-188 | the toast shows the message for 1000 ms |
| BillScreen.Bill.SaveBill | src/Bill.js:194-215 | a rejected amount sets its toast and changes nothing else; otherwise the bill is written over the selected one (count unchanged) or under a fresh id (count plus one), the list refreshes, the modal toggles and the selection is dropped |
| BillScreen.Bill.Write | src/Bill.js:204-214 | the write half of a save: store update, refresh, modal toggle, no selection, and the screen stays in sync |

## Left out

- Rendering, styles and navigation: the `render` methods, App.js, the add button, the edit modal component and index.js. They are presentation and registration only.
- The storage library behind src/storage.js. Its size limit of 1000 records with eviction, expiry, caching and write failures are not modelled. The store is an abstract id-to-record map with a fixed order. Every write succeeds; only a list read may fail.
- Async ordering of store writes against refreshes, and React's batched `setState`. Each handler is one sequential step, and a refresh reads the store synchronously after the handler's write.
- The `setTimeout` that clears the toast after 1000 ms. Timers are outside the model. The toast keeps its text and duration, and only `MakeToast` changes it.
- The toast's style object. It is presentation only.
- The `dayjs()` clock reads. The current date and time are the `now` parameter.
- BillScreen.ValidateAmount: JavaScript `Number` coercion (`+count`, `isNaN`) is not modelled. Only plain digit strings are valid amounts, so decimal, exponent, hexadecimal and signed spellings that JavaScript would accept are rejected here. Floating point is not modelled.
- BillScreen.EditForm: the amount field holds the magnitude's decimal digits, as the number `Math.abs(count)` is stringified by the next save. A fractional amount cannot arise in this model.
- TodoScreen.GenerateId, BillScreen.GenerateId: no contract of their own beyond the source expression (1000 on an empty list, otherwise the first displayed id plus one). What they promise is stated by `GeneratedIdIsFresh` and by the save contracts.
- Form field setters wired from `render`. A draft field may hold any string. The type radio only ever gives -1 or 1, and `Bill.Valid` keeps that.
- `console.log` in the Edit entry. It is output only.
