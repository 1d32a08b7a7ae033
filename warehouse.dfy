/**
 * `windows/warehouse_manager_window.py`: the product table of the warehouse manager. The sort
 * combo box and a double-click on a header set the table's sort indicator; editing reads the
 * product id shown in the selected row, finds that product among the rows last loaded, lets
 * the user change it in a dialog, and checks the name and the price before calling
 * `update_product`.
 */
module Warehouse {
  import opened Wrappers
  import opened Text
  import opened Sql
  import opened Connector
  import opened Models

  // ---- the sort indicator ----

  datatype SortOrder = Ascending | Descending

  /** The column and order of `sortByColumn`; column -1 is "no sorting". */
  datatype SortState = SortState(column: int, order: SortOrder)

  function Flip(o: SortOrder): (r: SortOrder)
    ensures r != o
  {
    if o == Ascending then Descending else Ascending
  }

  /**
   * `apply_sorting` for combo index `option`: 0 clears the sort, the odd options 1/3/5 sort
   * columns 1/2/3 ascending and the even options 2/4/6 the same columns descending; any other
   * index leaves the table as it was.
   */
  function SortAfterOption(current: SortState, option: int): (r: SortState)
    ensures option == 0 ==> r == SortState(-1, Ascending)
    ensures 1 <= option <= 6 ==>
      r.column == (option + 1) / 2 && (r.order == Ascending <==> option % 2 == 1)
    ensures !(0 <= option <= 6) ==> r == current
  {
    if option == 0 then SortState(-1, Ascending)
    else if option == 1 then SortState(1, Ascending)
    else if option == 2 then SortState(1, Descending)
    else if option == 3 then SortState(2, Ascending)
    else if option == 4 then SortState(2, Descending)
    else if option == 5 then SortState(3, Ascending)
    else if option == 6 then SortState(3, Descending)
    else current
  }

  /** The combo index that asks for sorting `column` (1, 2 or 3) in `order`. */
  function OptionFor(column: int, order: SortOrder): (option: int)
    requires 1 <= column <= 3
    ensures 1 <= option <= 6
  {
    if order == Ascending then 2 * column - 1 else 2 * column
  }

  /** Every sort of columns 1-3 is offered by exactly one combo index, and each index by one sort. */
  lemma {:induction false} SortOptionsRoundTrip(current: SortState, column: int, order: SortOrder,
                                                option: int)
    requires 1 <= column <= 3 && 1 <= option <= 6
    ensures SortAfterOption(current, OptionFor(column, order)) == SortState(column, order)
    ensures var r := SortAfterOption(current, option); OptionFor(r.column, r.order) == option
  {
  }

  /**
   * `on_header_double_clicked(index)`: on columns 1-3 the table is sorted by that column in the
   * opposite of the current indicator order; other columns are ignored.
   */
  function HeaderDoubleClicked(current: SortState, index: int): (r: SortState)
    ensures 1 <= index <= 3 ==> r.column == index && r.order != current.order
    ensures !(1 <= index <= 3) ==> r == current
  {
    if 1 <= index <= 3 then SortState(index, Flip(current.order)) else current
  }

  /** Double-clicking the same header twice sorts by it in the order the indicator had. */
  lemma {:induction false} HeaderTwiceRestoresOrder(current: SortState, index: int)
    ensures var twice := HeaderDoubleClicked(HeaderDoubleClicked(current, index), index);
      twice == if 1 <= index <= 3 then SortState(index, current.order) else current
  {
    var once := HeaderDoubleClicked(current, index);
    if 1 <= index <= 3 {
      assert once.order != current.order;
    }
  }

  // ---- finding the product of the selected row ----

  predicate AllProducts(rows: seq<Row>) {
    forall i :: 0 <= i < |rows| ==> rows[i].ProductRow?
  }

  /** The position of the first product with id `id`, if any. */
  function FirstWithId(products: seq<Row>, id: int): (r: Option<nat>)
    requires AllProducts(products)
    ensures r.Some? ==>
      && r.value < |products| && products[r.value].id == id
      && forall j :: 0 <= j < r.value ==> products[j].id != id
    ensures r.None? ==> forall j :: 0 <= j < |products| ==> products[j].id != id
    decreases |products|
  {
    if products == [] then None
    else if products[0].id == id then Some(0)
    else
      var rest := FirstWithId(products[1..], id);
      if rest.Some? then Some(rest.value + 1) else None
  }

  /** The text of the first column of each row: `str(product['id'])`. */
  function IdCells(products: seq<Row>): (cells: seq<string>)
    requires AllProducts(products)
    ensures |cells| == |products|
    ensures forall i :: 0 <= i < |products| ==> cells[i] == IntText(products[i].id)
  {
    seq(|products|, i requires 0 <= i < |products| => IntText(products[i].id))
  }

  /**
   * Whatever row of a loaded table is selected, the lookup finds a product with its id; as
   * `get_all_products` lists each id once, in increasing order, it finds that very row.
   */
  lemma {:induction false} SelectedRowFindsItsProduct(products: seq<Row>, row: nat)
    requires AllProducts(products) && row < |products|
    ensures var id := ParseInt(IdCells(products)[row]);
      && id == Some(products[row].id)
      && FirstWithId(products, id.value).Some?
      && FirstWithId(products, id.value).value <= row
      && (IdsIncreasing(products) ==> FirstWithId(products, id.value).value == row)
  {
    ParseIntOfIntText(products[row].id);
  }

  // ---- the edit dialog ----

  /** The items of the dialog's product type combo box. */
  const PRODUCT_TYPES: seq<string> := ["Электроника", "Одежда", "Книги", "Продукты", "Другое"]

  /** The type the combo box opens with: the product's own when listed, else the first item. */
  function InitialType(productType: string): (r: string)
    ensures r in PRODUCT_TYPES
    ensures productType in PRODUCT_TYPES ==> r == productType
  {
    if productType in PRODUCT_TYPES then productType else PRODUCT_TYPES[0]
  }

  /**
   * How the dialog closes. On OK: the name text, the combo item picked (None when left as it
   * opened) and `float(price_text)`, None when that conversion raises.
   */
  datatype DialogResult =
    | Rejected
    | Accepted(nameText: string, typeChoice: Option<nat>, price: Option<real>)

  predicate ValidChoice(d: DialogResult) {
    d.Accepted? && d.typeChoice.Some? ==> d.typeChoice.value < |PRODUCT_TYPES|
  }

  /** What `edit_selected_product` ends with; the last case is what it passes to `update_product`. */
  datatype EditOutcome =
    | NoSelection
    | IdNotNumber
    | NotFound
    | Cancelled
    | PriceNotNumber
    | EmptyName
    | NegativePrice
    | BadPrice
    | UpdateFailed(id: int, name: string, productType: string, price: real)

  /**
   * The message box each outcome shows; a cancelled dialog and the two conversions that raise
   * show none.
   */
  function Message(o: EditOutcome): (m: Option<string>)
    ensures m.None? <==> o.IdNotNumber? || o.Cancelled? || o.PriceNotNumber?
  {
    match o
    case NoSelection => Some("Пожалуйста, выберите товар для редактирования.")
    case IdNotNumber => None
    case NotFound => Some("Не удалось найти данные товара.")
    case Cancelled => None
    case PriceNotNumber => None
    case EmptyName => Some("Название товара не может быть пустым.")
    case NegativePrice => Some("Цена не может быть отрицательной.")
    case BadPrice => Some("Некорректное значение цены.")
    case UpdateFailed(_, _, _, _) => Some("Не удалось обновить товар в базе данных.")
  }

  /** The `product_type` of `get_updated_data`: the item picked, else the one the combo opened with. */
  function UpdatedType(product: Row, d: DialogResult): (t: string)
    requires product.ProductRow? && d.Accepted? && ValidChoice(d)
    ensures t in PRODUCT_TYPES
  {
    if d.typeChoice.Some? then PRODUCT_TYPES[d.typeChoice.value] else InitialType(product.productType)
  }

  /**
   * `edit_selected_product`, as written, on the first-column texts `cells` of the table, the
   * rows `products` last loaded, the selected row (-1 for none) and the dialog. `int()` of the
   * cell text and the `float()` inside `get_updated_data` raise on texts that are not numbers;
   * the `except ValueError` around the price check comes after the conversion and never fires.
   * `update_product` returns None, so every update that passes the checks is reported failed.
   */
  function EditAsWritten(cells: seq<string>, products: seq<Row>, row: int, d: DialogResult)
    : (r: EditOutcome)
    requires AllProducts(products) && -1 <= row < |cells| && ValidChoice(d)
    ensures r == NoSelection <==> row == -1
    ensures row != -1 && ParseInt(cells[row]).None? ==> r == IdNotNumber
    ensures (row != -1 && ParseInt(cells[row]).Some?
             && FirstWithId(products, ParseInt(cells[row]).value).None?) ==> r == NotFound
    ensures (row != -1 && ParseInt(cells[row]).Some?
             && FirstWithId(products, ParseInt(cells[row]).value).Some?) ==>
      && (d.Rejected? ==> r == Cancelled)
      && (d.Accepted? && d.price.None? ==> r == PriceNotNumber)
      && (d.Accepted? && d.price.Some? && Strip(d.nameText) == [] ==> r == EmptyName)
      && (d.Accepted? && d.price.Some? && Strip(d.nameText) != [] && d.price.value < 0.0 ==>
            r == NegativePrice)
    ensures r.UpdateFailed? ==>
      && row != -1 && d.Accepted? && ParseInt(cells[row]).Some?
      && FirstWithId(products, ParseInt(cells[row]).value).Some?
      && r.id == ParseInt(cells[row]).value
      && r.name == Strip(d.nameText) && r.name != [] && r.price >= 0.0
    ensures r.UpdateFailed? <==>
      row != -1 && ParseInt(cells[row]).Some?
      && FirstWithId(products, ParseInt(cells[row]).value).Some?
      && d.Accepted? && d.price.Some? && Strip(d.nameText) != [] && d.price.value >= 0.0
    ensures r != BadPrice
  {
    if row == -1 then NoSelection
    else
      var id := ParseInt(cells[row]);
      if id.None? then IdNotNumber
      else
        var found := FirstWithId(products, id.value);
        if found.None? then NotFound
        else if d.Rejected? then Cancelled
        else if d.price.None? then PriceNotNumber
        else
          var name := Strip(d.nameText);
          if name == [] then EmptyName
          else if d.price.value < 0.0 then NegativePrice
          else UpdateFailed(products[found.value].id, name,
                            UpdatedType(products[found.value], d), d.price.value)
  }

  /**
   * `edit_selected_product` as its checks intend: a row whose first cell is not a product id is
   * treated as a product that cannot be found, and a price that is not a number shows the
   * "incorrect price" warning instead of raising.
   */
  function EditChecked(cells: seq<string>, products: seq<Row>, row: int, d: DialogResult)
    : (r: EditOutcome)
    requires AllProducts(products) && -1 <= row < |cells| && ValidChoice(d)
    ensures r == NoSelection <==> row == -1
    ensures r != IdNotNumber && r != PriceNotNumber
    ensures r == BadPrice <==> EditAsWritten(cells, products, row, d) == PriceNotNumber
    ensures EditAsWritten(cells, products, row, d) == IdNotNumber ==> r == NotFound
    ensures !EditAsWritten(cells, products, row, d).IdNotNumber?
            && !EditAsWritten(cells, products, row, d).PriceNotNumber? ==>
      r == EditAsWritten(cells, products, row, d)
  {
    var written := EditAsWritten(cells, products, row, d);
    if written == IdNotNumber then NotFound
    else if written == PriceNotNumber then BadPrice
    else written
  }

  /** The row "Нет доступных товаров." shown when the table is empty. */
  const NO_PRODUCTS := "Нет доступных товаров."

  /** The row shown when the connection fails. */
  const CONNECTION_ERROR := "Ошибка подключения к базе данных."

  /** The placeholder row is not a number: selecting it makes `int()` raise. */
  lemma PlaceholderRowRaises(products: seq<Row>, d: DialogResult)
    requires AllProducts(products) && ValidChoice(d)
    ensures EditAsWritten([NO_PRODUCTS], products, 0, d) == IdNotNumber
    ensures EditChecked([NO_PRODUCTS], products, 0, d) == NotFound
  {
    StripOfTrimmed(NO_PRODUCTS);
    assert !IsAsciiDigit(NO_PRODUCTS[0]);
  }

  /** An OK with an empty price field raises in `get_updated_data` instead of warning. */
  lemma EmptyPriceRaises(products: seq<Row>, row: nat)
    requires AllProducts(products) && row < |products|
    ensures var d := Accepted("x", None, None);
      && EditAsWritten(IdCells(products), products, row, d) == PriceNotNumber
      && Message(EditAsWritten(IdCells(products), products, row, d)) == None
      && Message(EditChecked(IdCells(products), products, row, d)) == Some("Некорректное значение цены.")
  {
    SelectedRowFindsItsProduct(products, row);
  }

  /** Only a product that is shown, and a checked name and price, reach `update_product`. */
  lemma {:induction false} CheckedUpdateIsValid(products: seq<Row>, row: nat, d: DialogResult)
    requires AllProducts(products) && row < |products| && ValidChoice(d)
    requires d.Accepted? && d.price.Some? && d.price.value >= 0.0 && Strip(d.nameText) != []
    ensures var r := EditChecked(IdCells(products), products, row, d);
      && r.UpdateFailed? && r.id == products[row].id && r.name == Strip(d.nameText)
      && r.price == d.price.value && r.productType in PRODUCT_TYPES
  {
    SelectedRowFindsItsProduct(products, row);
  }

  class WarehouseManagerWindow {
    var sort: SortState
    /** `original_products`: the rows of the last `get_all_products()`. */
    var originalProducts: seq<Row>
    /** The first-column texts of the table's rows. */
    var cells: seq<string>

    predicate Valid()
      reads this
    {
      AllProducts(originalProducts) && cells != []
    }

    /**
     * `__init__`: connect; on failure the table shows the connection error and nothing is
     * loaded, otherwise the products are loaded.
     */
    constructor(db: DatabaseConnector, initialSort: SortState, refused: bool, fault: bool)
      requires db.Valid()
      modifies db
      ensures db.Valid() && Valid()
      ensures refused ==> cells == [CONNECTION_ERROR] && originalProducts == [] && sort == initialSort
      ensures !refused ==>
        var loaded := ProductList(ConnectTo(old(db.State()), false).0, fault);
        && db.State() == loaded.0 && originalProducts == loaded.1
        && (loaded.1 == [] ==> cells == [NO_PRODUCTS] && sort == initialSort)
        && (loaded.1 != [] ==> cells == IdCells(loaded.1) && sort == SortState(0, Ascending))
    {
      sort := initialSort;
      originalProducts := [];
      cells := [CONNECTION_ERROR];
      new;
      var ok := db.Connect(refused);
      if !ok {
        return;
      }
      LoadProductsData(db, fault);
    }

    /**
     * `load_products_data`: keep the rows, show one row per product with its id in the first
     * column and sort by that column, or show the "no products" row.
     */
    method LoadProductsData(db: DatabaseConnector, fault: bool)
      requires db.Valid()
      modifies this, db
      ensures db.Valid() && Valid()
      ensures (db.State(), originalProducts) == ProductList(old(db.State()), fault)
      ensures originalProducts == [] ==> cells == [NO_PRODUCTS] && sort == old(sort)
      ensures originalProducts != [] ==> cells == IdCells(originalProducts) && sort == SortState(0, Ascending)
    {
      var products := GetAllProducts(db, fault);
      originalProducts := products;
      if products != [] {
        cells := IdCells(products);
        sort := SortState(0, Ascending);
      } else {
        cells := [NO_PRODUCTS];
      }
    }

    method ApplySorting(option: int)
      modifies this
      ensures sort == SortAfterOption(old(sort), option)
      ensures originalProducts == old(originalProducts) && cells == old(cells)
    {
      sort := SortAfterOption(sort, option);
    }

    method OnHeaderDoubleClicked(index: int)
      modifies this
      ensures sort == HeaderDoubleClicked(old(sort), index)
      ensures originalProducts == old(originalProducts) && cells == old(cells)
    {
      if 1 <= index <= 3 {
        sort := SortState(index, Flip(sort.order));
      }
    }

    /** The `for product in self.original_products` loop: the first product with id `id`. */
    method FindProduct(id: int) returns (found: Option<nat>)
      requires Valid()
      ensures found == FirstWithId(originalProducts, id)
    {
      var i := 0;
      while i < |originalProducts|
        invariant 0 <= i <= |originalProducts|
        invariant forall j :: 0 <= j < i ==> originalProducts[j].id != id
      {
        if originalProducts[i].id == id {
          FirstWithIdIsFirstMatch(originalProducts, id, i);
          return Some(i);
        }
        i := i + 1;
      }
      FirstWithIdIsFirstMatch(originalProducts, id, |originalProducts|);
      return None;
    }

    /** `edit_selected_product`, with the dialog's answer given. */
    method EditSelectedProduct(db: DatabaseConnector, row: int, d: DialogResult)
      returns (outcome: EditOutcome)
      requires Valid() && -1 <= row < |cells| && ValidChoice(d)
      ensures outcome == EditAsWritten(cells, originalProducts, row, d)
    {
      if row == -1 {
        return NoSelection;
      }
      var productId := ParseInt(cells[row]);
      if productId.None? {
        return IdNotNumber;
      }
      var found := FindProduct(productId.value);
      if found.None? {
        return NotFound;
      }
      if d.Rejected? {
        return Cancelled;
      }
      var product := originalProducts[found.value];
      if d.price.None? {
        return PriceNotNumber;
      }
      var name := Strip(d.nameText);
      if name == [] {
        return EmptyName;
      }
      var price := d.price.value;
      if price < 0.0 {
        return NegativePrice;
      }
      var productType := UpdatedType(product, d);
      var success := UpdateProduct(db, product.id, name, productType, price);
      return UpdateFailed(product.id, name, productType, price);
    }
  }

  /** The first match found by scanning from the front is the one `FirstWithId` names. */
  lemma {:induction false} FirstWithIdIsFirstMatch(products: seq<Row>, id: int, i: nat)
    requires AllProducts(products) && i <= |products|
    requires forall j :: 0 <= j < i ==> products[j].id != id
    requires i < |products| ==> products[i].id == id
    ensures FirstWithId(products, id) == if i < |products| then Some(i) else None
  {
    var r := FirstWithId(products, id);
    if r.Some? {
      assert r.value >= i;
    }
  }
}
