/**
 * `windows/supplier_manager_window.py`: the supplier form and its table. The form is checked
 * (company name, then INN present, then INN all digits) before anything reaches the database;
 * edit and delete act on `current_supplier_id`, which a table selection sets and `clear_form`
 * resets, and which is refused while falsy (`None` or `0`).
 */
module SupplierWindow {
  import opened Wrappers
  import opened Text
  import opened Store
  import opened Sql
  import opened Connector
  import opened Models

  /** The three line edits, as typed. */
  datatype SupplierForm = SupplierForm(companyName: string, inn: string, phone: string)

  const BLANK_FORM := SupplierForm("", "", "")

  const ENTER_NAME := "Введите название компании"
  const ENTER_INN := "Введите ИНН"
  const INN_NOT_DIGITS := "ИНН должен содержать только цифры"
  const ADDED := "Поставщик успешно добавлен"
  const NOT_ADDED := "Не удалось добавить поставщика"
  const UPDATED := "Данные поставщика обновлены"
  const NOT_UPDATED := "Не удалось обновить данные"
  const DELETED := "Поставщик удален"
  const NOT_DELETED := "Не удалось удалить поставщика"
  const SELECT_TO_EDIT := "Выберите поставщика для редактирования"
  const SELECT_TO_DELETE := "Выберите поставщика для удаления"

  /**
   * `validate_form`: the warning shown, or None when the form is accepted. The stripped company
   * name must be non-empty, then the stripped INN non-empty, then made of digits only.
   */
  function FormError(f: SupplierForm): (r: Option<string>)
    ensures r.None? <==> Strip(f.companyName) != [] && IsDigits(Strip(f.inn))
    ensures Strip(f.companyName) == [] ==> r == Some(ENTER_NAME)
    ensures Strip(f.companyName) != [] && Strip(f.inn) == [] ==> r == Some(ENTER_INN)
    ensures Strip(f.companyName) != [] && Strip(f.inn) != [] && !IsDigits(Strip(f.inn)) ==>
      r == Some(INN_NOT_DIGITS)
  {
    var name := Strip(f.companyName);
    var inn := Strip(f.inn);
    if name == [] then Some(ENTER_NAME)
    else if inn == [] then Some(ENTER_INN)
    else if !IsDigits(inn) then Some(INN_NOT_DIGITS)
    else None
  }

  /** `get_form_data`: the three texts stripped; the phone is always present, possibly empty. */
  function FormData(f: SupplierForm): (d: SupplierData)
    ensures d.companyName == Strip(f.companyName) && d.inn == Strip(f.inn)
    ensures d.contactPhone == Some(Strip(f.phone))
  {
    SupplierData(Strip(f.companyName), Strip(f.inn), Some(Strip(f.phone)))
  }

  /** What `on_supplier_selected` puts in the form for a supplier row. */
  function FormOf(row: Row): (f: SupplierForm)
    requires row.SupplierRow?
    ensures f.companyName == row.companyName && f.inn == row.inn && f.phone == row.contactPhone
  {
    SupplierForm(row.companyName, row.inn, row.contactPhone)
  }

  /** `not self.current_supplier_id`: no selection, or the id 0. */
  predicate Unselected(id: Option<int>) {
    id == None || id == Some(0)
  }

  /** An accepted form is stored with a non-empty name, a digits-only INN and stripped texts. */
  lemma {:induction false} AcceptedFormIsStoredStripped(f: SupplierForm)
    requires FormError(f) == None
    ensures var d := FormData(f);
      && d.companyName != [] && IsDigits(d.inn)
      && Strip(d.companyName) == d.companyName && Strip(d.inn) == d.inn
      && d.contactPhone.Some? && Strip(d.contactPhone.value) == d.contactPhone.value
  {
    StripIdempotent(f.companyName);
    StripIdempotent(f.inn);
    StripIdempotent(f.phone);
  }

  /**
   * Adding an accepted form and selecting the new row gives back a form that is accepted again
   * and submits the very same data.
   */
  lemma {:induction false} AddedSupplierReloadsIntoForm(s: Session, f: SupplierForm)
    requires s.Valid() && s.IsOpen() && FormError(f) == None
    ensures var a := SupplierAdded(s, FormData(f), false);
      var got := SupplierById(a.0, s.pending.nextId, false).1;
      && a.1 && got.Some? && got.value.SupplierRow?
      && FormError(FormOf(got.value)) == None
      && FormData(FormOf(got.value)) == FormData(f)
  {
    AddThenGet(s, FormData(f));
    AcceptedFormIsStoredStripped(f);
  }

  /** Every row `get_all_suppliers` lists is a supplier whose id counts as a selection. */
  lemma {:induction false} ListedSuppliersAreSelectable(s: Session, fault: bool)
    requires s.Valid()
    ensures var rows := SupplierList(s, fault).1;
      forall i :: 0 <= i < |rows| ==>
        rows[i].SupplierRow? && rows[i].supplierId >= 1 && !Unselected(Some(rows[i].supplierId))
  {
    var rows := SupplierList(s, fault).1;
    forall i | 0 <= i < |rows|
      ensures rows[i].SupplierRow? && rows[i].supplierId >= 1
    {
      assert rows[i] in multiset(rows);
      assert rows[i] in multiset(SupplierRows(s.pending));
    }
  }

  class SupplierManagerWindow {
    /** The rows of `suppliers_table`, as the last `load_suppliers` read them. */
    var table: seq<Row>
    var currentSupplierId: Option<int>
    var companyName: string
    var inn: string
    var phone: string

    function Form(): SupplierForm
      reads this
    {
      SupplierForm(companyName, inn, phone)
    }

    /** The table holds supplier rows only. */
    predicate Valid()
      reads this
    {
      forall i :: 0 <= i < |table| ==> table[i].SupplierRow? && table[i].supplierId >= 1
    }

    /** `__init__`: nothing selected, an empty form, and the table loaded. */
    constructor(db: DatabaseConnector, fault: bool)
      requires db.Valid()
      modifies db
      ensures db.Valid() && Valid()
      ensures (db.State(), table) == SupplierList(old(db.State()), fault)
      ensures currentSupplierId == None && Form() == BLANK_FORM
    {
      currentSupplierId := None;
      companyName := "";
      inn := "";
      phone := "";
      table := [];
      new;
      LoadSuppliers(db, fault);
    }

    /** `load_suppliers`: the table shows `get_all_suppliers()`; nothing else changes. */
    method LoadSuppliers(db: DatabaseConnector, fault: bool)
      requires db.Valid()
      modifies this, db
      ensures db.Valid() && Valid()
      ensures (db.State(), table) == SupplierList(old(db.State()), fault)
      ensures currentSupplierId == old(currentSupplierId) && Form() == old(Form())
    {
      ListedSuppliersAreSelectable(db.State(), fault);
      table := GetAllSuppliers(db, fault);
    }

    /**
     * `on_supplier_selected`: without a selection nothing happens; otherwise the row's id
     * becomes `current_supplier_id`, and the form is filled when the supplier is found.
     */
    method OnSupplierSelected(db: DatabaseConnector, selected: Option<nat>, fault: bool)
      requires db.Valid() && Valid()
      requires selected.Some? ==> selected.value < |table|
      modifies this, db
      ensures db.Valid() && Valid() && table == old(table)
      ensures selected.None? ==>
        db.State() == old(db.State()) && currentSupplierId == old(currentSupplierId)
        && Form() == old(Form())
      ensures selected.Some? ==>
        var id := old(table)[selected.value].supplierId;
        var r := SupplierById(old(db.State()), id, fault);
        && currentSupplierId == Some(id) && !Unselected(currentSupplierId)
        && db.State() == r.0
        && (r.1.Some? ==> r.1.value.SupplierRow? && Form() == FormOf(r.1.value))
        && (r.1.None? ==> Form() == old(Form()))
    {
      if selected.None? {
        return;
      }
      var id := table[selected.value].supplierId;
      currentSupplierId := Some(id);
      var supplier := GetSupplierById(db, id, fault);
      if supplier.Some? {
        var row := supplier.value;
        companyName := row.companyName;
        inn := row.inn;
        phone := row.contactPhone;
      }
    }

    /**
     * `add_supplier`: a refused form shows its warning and changes nothing; otherwise the
     * stripped data is added, and on success the form is cleared and the table reloaded.
     */
    method AddSupplier(db: DatabaseConnector, fault: bool, loadFault: bool) returns (shown: string)
      requires db.Valid() && Valid()
      modifies this, db
      ensures db.Valid() && Valid()
      ensures FormError(old(Form())).Some? ==>
        shown == FormError(old(Form())).value && db.State() == old(db.State()) && unchanged(this)
      ensures FormError(old(Form())).None? ==>
        var r := SupplierAdded(old(db.State()), FormData(old(Form())), fault);
        && (r.1 ==> shown == ADDED && currentSupplierId == None && Form() == BLANK_FORM
                    && (db.State(), table) == SupplierList(r.0, loadFault))
        && (!r.1 ==> shown == NOT_ADDED && db.State() == r.0 && unchanged(this))
    {
      var error := ValidateForm();
      if error.Some? {
        return error.value;
      }
      var data := FormData(Form());
      var ok := AddNewSupplier(db, data, fault);
      if ok {
        ClearForm();
        LoadSuppliers(db, loadFault);
        return ADDED;
      }
      return NOT_ADDED;
    }

    /**
     * `edit_supplier`: refused while nothing is selected, then the form check; otherwise the
     * selected supplier takes the stripped data.
     */
    method EditSupplier(db: DatabaseConnector, fault: bool, loadFault: bool) returns (shown: string)
      requires db.Valid() && Valid()
      modifies this, db
      ensures db.Valid() && Valid()
      ensures Unselected(old(currentSupplierId)) ==>
        shown == SELECT_TO_EDIT && db.State() == old(db.State()) && unchanged(this)
      ensures !Unselected(old(currentSupplierId)) && FormError(old(Form())).Some? ==>
        shown == FormError(old(Form())).value && db.State() == old(db.State()) && unchanged(this)
      ensures !Unselected(old(currentSupplierId)) && FormError(old(Form())).None? ==>
        var r := SupplierEdited(old(db.State()), old(currentSupplierId).value,
                                FormData(old(Form())), fault);
        && (r.1 ==> shown == UPDATED && currentSupplierId == None && Form() == BLANK_FORM
                    && (db.State(), table) == SupplierList(r.0, loadFault))
        && (!r.1 ==> shown == NOT_UPDATED && db.State() == r.0 && unchanged(this))
    {
      if Unselected(currentSupplierId) {
        return SELECT_TO_EDIT;
      }
      var error := ValidateForm();
      if error.Some? {
        return error.value;
      }
      var data := FormData(Form());
      var ok := EditSupplierInfo(db, currentSupplierId.value, data, fault);
      if ok {
        ClearForm();
        LoadSuppliers(db, loadFault);
        return UPDATED;
      }
      return NOT_UPDATED;
    }

    /**
     * `delete_supplier`: refused while nothing is selected; otherwise, once the user confirms,
     * the selected supplier is deleted. Declining shows nothing and changes nothing.
     */
    method DeleteSupplier(db: DatabaseConnector, confirmed: bool, fault: bool, loadFault: bool)
      returns (shown: Option<string>)
      requires db.Valid() && Valid()
      modifies this, db
      ensures db.Valid() && Valid()
      ensures Unselected(old(currentSupplierId)) ==>
        shown == Some(SELECT_TO_DELETE) && db.State() == old(db.State()) && unchanged(this)
      ensures !Unselected(old(currentSupplierId)) && !confirmed ==>
        shown == None && db.State() == old(db.State()) && unchanged(this)
      ensures !Unselected(old(currentSupplierId)) && confirmed ==>
        var r := SupplierDeleted(old(db.State()), old(currentSupplierId).value, fault);
        && (r.1 ==> shown == Some(DELETED) && currentSupplierId == None && Form() == BLANK_FORM
                    && (db.State(), table) == SupplierList(r.0, loadFault))
        && (!r.1 ==> shown == Some(NOT_DELETED) && db.State() == r.0 && unchanged(this))
    {
      if Unselected(currentSupplierId) {
        return Some(SELECT_TO_DELETE);
      }
      if !confirmed {
        return None;
      }
      var ok := DeleteSupplierById(db, currentSupplierId.value, fault);
      if ok {
        ClearForm();
        LoadSuppliers(db, loadFault);
        return Some(DELETED);
      }
      return Some(NOT_DELETED);
    }

    /** `validate_form` on the current texts. */
    method ValidateForm() returns (error: Option<string>)
      ensures error == FormError(Form())
    {
      var name := Strip(companyName);
      var innText := Strip(inn);
      if name == [] {
        return Some(ENTER_NAME);
      }
      if innText == [] {
        return Some(ENTER_INN);
      }
      if !IsDigits(innText) {
        return Some(INN_NOT_DIGITS);
      }
      return None;
    }

    /** `clear_form`: no selection and empty texts; the table is kept. */
    method ClearForm()
      modifies this
      ensures currentSupplierId == None && Form() == BLANK_FORM && table == old(table)
    {
      currentSupplierId := None;
      companyName := "";
      inn := "";
      phone := "";
    }
  }
}
