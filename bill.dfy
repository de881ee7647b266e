/**
 * The ledger screen (`Bill`): a list of bills kept in the "billList"
 * collection, an edit modal whose form holds a type (expense -1 or income 1),
 * a date, a time, an amount and a description, a record selected through the
 * Edit/Delete/Cancel menu, and a toast for a rejected save.
 */
module BillScreen {
  import opened Wrappers
  import opened Toasts
  import opened Seqs
  import opened Strings
  import opened Storage

  /** A stored bill: `date` is "date time", `count` is signed (negative for an expense). */
  datatype BillItem = BillItem(id: int, date: string, count: int, desc: string)

  /** The draft form: `type` (here `kind`), `date`, `time`, `count` and `text`. */
  datatype BillForm = BillForm(kind: int, date: string, time: string, count: string, text: string)

  /** A reading of the clock: today's date and the current time, as the form shows them. */
  datatype Clock = Clock(date: string, time: string)

  const BaselineId := 1000
  const Expense := -1
  const Income := 1

  const AmountEmptyMessage := "金额不可为空"
  const AmountInvalidMessage := "金额不合法"

  /** What JavaScript makes of the missing second part of a date without a space. */
  const Undefined := "undefined"

  /** The two sample bills the list holds before its first refresh. */
  const Placeholder := [
    BillItem(1, "2018-06-23 12:42", 200, "哈哈哈哈哈"),
    BillItem(2, "2019-08-24 12:42", -300, "哈哈哈哈哈")
  ]

  function Abs(x: int): nat
  {
    if x < 0 then -x else x
  }

  /** Every stored bill carries the id it is stored under. */
  ghost predicate IdsMatch(records: map<int, BillItem>)
  {
    forall id :: id in records ==> records[id].id == id
  }

  /** `generateId`: one more than the id of the first displayed bill, or the baseline. */
  function GenerateId(billData: seq<BillItem>): int
  {
    if |billData| > 0 then billData[0].id + 1 else BaselineId
  }

  /** The form `clearForm` leaves: an expense dated now, with no amount and no text. */
  function BlankForm(now: Clock): BillForm
  {
    BillForm(Expense, now.date, now.time, "", "")
  }

  /**
   * The two amount checks of `saveBill`, in order: a blank amount is rejected
   * as empty; anything that is not a positive decimal number as invalid.
   */
  function ValidateAmount(count: string): (r: Result<nat, string>)
    ensures r.Failure? ==> r.error == AmountEmptyMessage || r.error == AmountInvalidMessage
    ensures r.Failure? && r.error == AmountEmptyMessage <==> AllSpace(count)
    ensures r.Success? <==> IsDecimal(Trim(count)) && ParseDecimal(Trim(count)) > 0
    ensures r.Success? ==> r.value > 0 && r.value == ParseDecimal(Trim(count))
  {
    var amount := Trim(count);
    if amount == [] then Failure(AmountEmptyMessage)
    else if !IsDecimal(amount) || ParseDecimal(amount) == 0 then Failure(AmountInvalidMessage)
    else Success(ParseDecimal(amount))
  }

  /**
   * The record `saveBill` writes for a validated amount: the sign comes from
   * the type, the date joins date and time with a space, and the description
   * is the trimmed text.
   */
  function MakeBill(id: int, form: BillForm, amount: nat): (b: BillItem)
    requires form.kind == Expense || form.kind == Income
    requires amount > 0
    ensures b.id == id
    ensures b.date == form.date + " " + form.time
    ensures b.count != 0 && Abs(b.count) == amount
    ensures b.count < 0 <==> form.kind == Expense
    ensures b.desc == Trim(form.text)
  {
    BillItem(id, form.date + " " + form.time, if form.kind == Expense then -(amount as int) else amount as int,
             if form.text == [] then [] else Trim(form.text))
  }

  /** The signed amount is the radio value times the magnitude, as `saveBill` computes it. */
  lemma SignedAmountIsProduct(id: int, form: BillForm, amount: nat)
    requires form.kind == Expense || form.kind == Income
    requires amount > 0
    ensures MakeBill(id, form, amount).count == form.kind * amount
  {
  }

  /**
   * What `saveBill` makes of the form: the first failed amount check with its
   * toast text, or the record it writes, under the selected bill's id or a
   * newly generated one.
   */
  function PrepareBill(form: BillForm, current: Option<BillItem>, billData: seq<BillItem>): (r: Result<BillItem, string>)
    requires form.kind == Expense || form.kind == Income
    ensures r.Failure? <==> ValidateAmount(form.count).Failure?
    ensures r.Failure? ==> r.error == ValidateAmount(form.count).error
    ensures r.Success? ==> r.value.id == if current.Some? then current.value.id else GenerateId(billData)
    ensures r.Success? ==> Abs(r.value.count) == ParseDecimal(Trim(form.count))
    ensures r.Success? ==> (r.value.count < 0 <==> form.kind == Expense)
    ensures r.Success? ==> r.value.date == form.date + " " + form.time
    ensures r.Success? ==> r.value.desc == Trim(form.text)
  {
    var amount := ValidateAmount(form.count);
    if amount.Failure? then Failure(amount.error)
    else
      var id := if current.Some? then current.value.id else GenerateId(billData);
      Success(MakeBill(id, form, amount.value))
  }

  /**
   * The form the Edit entry fills from a bill: the type from the sign of the
   * amount (zero counts as an expense), the amount's magnitude as digits, the
   * first two space-separated parts of the date, and the description.
   */
  function EditForm(item: BillItem): (f: BillForm)
    ensures f.kind == Expense || f.kind == Income
    ensures f.kind == Expense <==> item.count <= 0
    ensures f.count == DecimalString(Abs(item.count))
    ensures f.text == item.desc
    ensures ' ' !in f.date && f.date <= item.date
    ensures ' ' !in item.date ==> f.date == item.date && f.time == Undefined
    ensures f.date == item.date || (|f.date| < |item.date| && item.date[|f.date|] == ' ')
    ensures ' ' in item.date ==>
      && ' ' !in f.time && f.date + [' '] + f.time <= item.date
      && (|f.date| + 1 + |f.time| == |item.date| || item.date[|f.date| + 1 + |f.time|] == ' ')
  {
    var parts := Split(item.date, ' ');
    SplitHead(item.date, ' ');
    assert parts[0] <= item.date by {
      if |parts| > 1 {
        assert item.date == parts[0] + ([' '] + Join(parts[1..], ' '));
      }
    }
    assert ' ' !in item.date ==> parts == [item.date] by {
      if ' ' !in item.date {
        SplitWithoutSeparator(item.date, ' ');
      }
    }
    BillForm(if item.count <= 0 then Expense else Income,
             parts[0],
             if |parts| > 1 then parts[1] else Undefined,
             DecimalString(Abs(item.count)),
             item.desc)
  }

  /**
   * The amount the Edit entry puts in the form passes the amount checks and
   * gives back the bill's magnitude, unless the bill's amount is zero.
   */
  lemma {:induction false} EditedAmountValidates(item: BillItem)
    ensures item.count != 0 ==> ValidateAmount(EditForm(item).count) == Success(Abs(item.count))
    ensures item.count == 0 ==> ValidateAmount(EditForm(item).count) == Failure(AmountInvalidMessage)
  {
    var digits := DecimalString(Abs(item.count));
    ParseDecimalString(Abs(item.count));
    TrimDecimal(digits);
  }

  /**
   * Editing a saved bill gives back the form it was saved from: the type,
   * the date and the time (when neither holds a space), the amount (as a
   * string that validates to the same number) and the trimmed text.
   */
  lemma {:induction false} EditInvertsSave(id: int, form: BillForm, amount: nat)
    requires form.kind == Expense || form.kind == Income
    requires amount > 0
    requires ' ' !in form.date && ' ' !in form.time
    ensures var f := EditForm(MakeBill(id, form, amount));
      && f.kind == form.kind && f.date == form.date && f.time == form.time
      && ValidateAmount(f.count) == Success(amount)
      && f.text == Trim(form.text)
  {
    var b := MakeBill(id, form, amount);
    SplitPair(form.date, form.time, ' ');
    assert b.date == form.date + [' '] + form.time;
    EditedAmountValidates(b);
  }

  /**
   * Saving a bill, editing it and saving again without touching the form
   * writes exactly the same record under the same id.
   */
  lemma {:induction false} SaveAfterEditRewritesSame(id: int, form: BillForm, amount: nat, billData: seq<BillItem>)
    requires form.kind == Expense || form.kind == Income
    requires amount > 0
    requires ' ' !in form.date && ' ' !in form.time
    ensures var b := MakeBill(id, form, amount);
      PrepareBill(EditForm(b), Some(b), billData) == Success(b)
  {
    var b := MakeBill(id, form, amount);
    EditInvertsSave(id, form, amount);
    var f := EditForm(b);
    TrimIdempotent(form.text, f.text);
    var r := PrepareBill(f, Some(b), billData);
    assert r.value.date == b.date;
    assert r.value.count == b.count;
  }

  /** A displayed bill (the store's list reversed) is the stored record under its id. */
  lemma ShownIsStored(ids: seq<int>, records: map<int, BillItem>, item: BillItem)
    requires Indexes(ids, records) && IdsMatch(records)
    requires item in Reversed(ListOf(ids, records))
    ensures item.id in records && records[item.id] == item
  {
    var listed := ListOf(ids, records);
    var shown := Reversed(listed);
    var i :| 0 <= i < |shown| && shown[i] == item;
    var j := |ids| - 1 - i;
    assert item == listed[j];
    assert listed[j] == records[ids[j]];
    assert ids[j] in records;
  }

  /**
   * When ids were written in ascending order and the display is the store's
   * list reversed, the generated id exceeds every stored id.
   */
  lemma GeneratedIdIsFresh(ids: seq<int>, records: map<int, BillItem>)
    requires Indexes(ids, records) && IdsMatch(records) && Ascending(ids)
    ensures forall id :: id in records ==> id < GenerateId(Reversed(ListOf(ids, records)))
  {
    var shown := Reversed(ListOf(ids, records));
    if |ids| > 0 {
      assert shown[0] == records[ids[|ids| - 1]];
      forall id | id in records ensures id < GenerateId(shown) {
        LastIsLargest(ids, id);
      }
    }
  }

  /**
   * While the display shows the store, a save writes over the selected bill
   * or under an id no bill has, and either way the store's ids stay ascending.
   */
  lemma WriteKeepsAscending(ids: seq<int>, records: map<int, BillItem>, billData: seq<BillItem>,
                            current: Option<BillItem>, id: int)
    requires Indexes(ids, records) && IdsMatch(records) && Ascending(ids)
    requires billData == Reversed(ListOf(ids, records))
    requires current.Some? ==> current.value.id in records
    requires id == if current.Some? then current.value.id else GenerateId(billData)
    ensures id in records <==> current.Some?
    ensures Ascending(if id in records then ids else ids + [id])
  {
    if current.None? {
      GeneratedIdIsFresh(ids, records);
      AppendLargerKeepsAscending(ids, id);
    }
  }

  class Bill {
    var billData: seq<BillItem>
    var isModalShown: bool
    /** The `type` field: Expense or Income. */
    var kind: int
    var date: string
    var time: string
    /** The amount as typed. */
    var count: string
    var text: string
    var toast: Option<Toast>
    /** The bill chosen through the item menu, `undefined` when none. */
    var current: Option<BillItem>
    const store: Collection<BillItem>

    /** The store is well formed and every bill in it sits under its own id. */
    ghost predicate StoreValid()
      reads store
    {
      store.Valid() && IdsMatch(store.records)
    }

    ghost predicate Valid()
      reads this, store
    {
      StoreValid() && (kind == Expense || kind == Income)
    }

    /** The draft form as one value. */
    function Form(): BillForm
      reads this
    {
      BillForm(kind, date, time, count, text)
    }

    /** The list a refresh displays: the store's list reversed, or nothing when the read fails. */
    ghost function Refreshed(readOk: bool): seq<BillItem>
      reads store
      requires StoreValid()
    {
      if readOk then Reversed(store.SelectList()) else []
    }

    /**
     * The display shows the store, ids sit in the store in ascending order,
     * and a selected bill is stored.
     */
    ghost predicate InSync()
      reads this, store
      requires StoreValid()
    {
      && billData == Reversed(store.SelectList())
      && Ascending(store.ids)
      && (current.Some? ==> current.value.id in store.records)
    }

    constructor (store: Collection<BillItem>, now: Clock)
      requires store.Valid() && IdsMatch(store.records)
      ensures Valid() && this.store == store
      ensures billData == Placeholder && !isModalShown && Form() == BlankForm(now)
      ensures toast == None && current == None
    {
      this.store := store;
      billData, isModalShown := Placeholder, false;
      date, time := now.date, now.time;
      kind, count, text := Expense, "", "";
      toast, current := None, None;
    }

    /** `initBillList`: reload the display from the store, failing open to an empty list. */
    method InitBillList(readOk: bool)
      requires Valid()
      modifies this`billData
      ensures Valid()
      ensures billData == Refreshed(readOk)
    {
      if readOk {
        var list := store.SelectList();
        billData := if |list| > 0 then Reversed(list) else [];
      } else {
        billData := [];
      }
    }

    /** `showItemOptions`: select a displayed bill before the menu opens. */
    method ShowItemOptions(item: BillItem)
      requires Valid()
      modifies this`current
      ensures Valid()
      ensures current == Some(item)
      ensures old(InSync()) && item in billData ==> InSync()
    {
      if InSync() && item in billData {
        ShownIsStored(store.ids, store.records, item);
      }
      current := Some(item);
    }

    /** `changeModal`: toggle the modal; closing it also resets the form to `now`. */
    method ChangeModal(now: Clock)
      requires Valid()
      modifies this`kind, this`date, this`time, this`count, this`text, this`current, this`isModalShown
      ensures Valid()
      ensures isModalShown == !old(isModalShown)
      ensures old(isModalShown) ==> Form() == BlankForm(now) && current == None
      ensures !old(isModalShown) ==> Form() == old(Form()) && current == old(current)
    {
      if isModalShown {
        ClearForm(now);
      }
      isModalShown := !isModalShown;
    }

    /** `clearForm`: reset the form (an expense dated `now`) and drop the selection. */
    method ClearForm(now: Clock)
      requires Valid()
      modifies this`kind, this`date, this`time, this`count, this`text, this`current
      ensures Valid()
      ensures Form() == BlankForm(now) && current == None
    {
      date, time := now.date, now.time;
      kind, count, text := Expense, "", "";
      current := None;
    }

    /** `deleteItem`: remove the selected bill, refresh and drop the selection. */
    method DeleteItem(readOk: bool)
      requires Valid()
      modifies this`billData, this`current, store
      ensures Valid()
      ensures old(current) == None ==> unchanged(store) && billData == old(billData) && current == None
      ensures old(current).Some? ==>
        && store.records == old(store.records) - {old(current).value.id}
        && store.ids == Without(old(store.ids), old(current).value.id)
        && billData == Refreshed(readOk)
        && current == None
      ensures old(InSync()) && old(current).Some? ==> |store.records| == |old(store.records)| - 1
      ensures old(InSync()) && (old(current).Some? ==> readOk) ==> InSync()
    {
      if current == None {
        return;
      }
      store.Delete(current.value.id);
      InitBillList(readOk);
      current := None;
    }

    /** `selectSheet`: the Edit (0), Delete (1) and Cancel (2) entries of the item menu. */
    method SelectSheet(index: int, readOk: bool, now: Clock)
      requires Valid()
      modifies this`billData, this`kind, this`date, this`time, this`count, this`text, this`current, this`isModalShown, store
      ensures Valid()
      ensures old(current) == None || index !in {0, 1, 2} ==> unchanged(this, store)
      ensures old(current).Some? && index == 0 ==>
        && unchanged(store) && billData == old(billData)
        && isModalShown == !old(isModalShown)
        && (if old(isModalShown) then Form() == BlankForm(now) && current == None
            else Form() == EditForm(old(current).value) && current == old(current))
      ensures old(current).Some? && index == 1 ==>
        && store.records == old(store.records) - {old(current).value.id}
        && store.ids == Without(old(store.ids), old(current).value.id)
        && billData == Refreshed(readOk) && current == None
        && Form() == old(Form()) && isModalShown == old(isModalShown)
      ensures old(current).Some? && index == 2 ==>
        && unchanged(store) && billData == old(billData) && current == None
        && Form() == old(Form()) && isModalShown == old(isModalShown)
      ensures old(InSync()) && (index == 1 ==> readOk) ==> InSync()
    {
      if current == None {
        return;
      }
      match index
      case 0 =>
        var f := EditForm(current.value);
        kind, date, time, count, text := f.kind, f.date, f.time, f.count, f.text;
        ChangeModal(now);
      case 1 =>
        DeleteItem(readOk);
      case 2 =>
        current := None;
      case _ =>
    }

    /** `makeToast`: show `message` for the toast duration. */
    method MakeToast(message: string)
      modifies this`toast
      ensures toast == Some(Toast(message, ToastDuration))
    {
      toast := Some(Toast(message, ToastDuration));
    }

    /**
     * `saveBill`: reject a blank or invalid amount with a toast; otherwise
     * write the bill (over the selected one, or under a generated id),
     * refresh, toggle the modal and drop the selection.
     */
    method SaveBill(readOk: bool, now: Clock)
      requires Valid()
      modifies this`billData, this`kind, this`date, this`time, this`count, this`text, this`current, this`isModalShown, this`toast, store
      ensures Valid()
      ensures var r := PrepareBill(old(Form()), old(current), old(billData));
        if r.Failure? then
          && toast == Some(Toast(r.error, ToastDuration))
          && unchanged(store) && billData == old(billData) && Form() == old(Form())
          && isModalShown == old(isModalShown) && current == old(current)
        else
          && store.records == old(store.records)[r.value.id := r.value]
          && store.ids == (if r.value.id in old(store.records) then old(store.ids) else old(store.ids) + [r.value.id])
          && billData == Refreshed(readOk)
          && isModalShown == !old(isModalShown)
          && Form() == (if old(isModalShown) then BlankForm(now) else old(Form()))
          && current == None && toast == old(toast)
          && (old(InSync()) ==> |store.records| == |old(store.records)| + (if old(current).Some? then 0 else 1))
      ensures old(InSync()) && readOk ==> InSync()
    {
      var r := PrepareBill(Form(), current, billData);
      if r.Failure? {
        MakeToast(r.error);
        return;
      }
      Write(r.value, readOk, now);
    }

    /** The write half of `saveBill`, once the amount has passed its checks. */
    method Write(item: BillItem, readOk: bool, now: Clock)
      requires Valid()
      requires item.id == if current.Some? then current.value.id else GenerateId(billData)
      modifies this`billData, this`kind, this`date, this`time, this`count, this`text, this`current, this`isModalShown, store
      ensures Valid()
      ensures store.records == old(store.records)[item.id := item]
      ensures store.ids == if item.id in old(store.records) then old(store.ids) else old(store.ids) + [item.id]
      ensures billData == Refreshed(readOk)
      ensures isModalShown == !old(isModalShown)
      ensures Form() == if old(isModalShown) then BlankForm(now) else old(Form())
      ensures current == None
      ensures old(InSync()) ==> |store.records| == |old(store.records)| + (if old(current).Some? then 0 else 1)
      ensures old(InSync()) && readOk ==> InSync()
    {
      if InSync() {
        WriteKeepsAscending(store.ids, store.records, billData, current, item.id);
      }
      store.Add(item.id, item);
      InitBillList(readOk);
      ChangeModal(now);
      current := None;
    }
  }
}
