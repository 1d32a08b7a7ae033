/**
 * The SQL statements `db/models.py` sends through the connector, each as its effect on the
 * store: the rows a SELECT returns (in the columns and under the names it selects), and the
 * rows an INSERT, UPDATE or DELETE changes.
 */
module Sql {
  import opened Wrappers
  import opened Store

  /** One row of a result set, by the columns the statement selects. */
  datatype Row =
    | IdRow(id: int)
    | LoginRow(userId: int, username: string, roleId: int)
    | SupplierRow(supplierId: int, companyName: string, inn: string, contactPhone: string)
    | ProductRow(id: int, name: string, productType: string, price: int)

  // ---- SELECT user_id, username, role_id FROM users WHERE username=%s AND password_hash=%s ----

  function LoginMatches(s: Store, username: string, password: string): seq<int> {
    Select(s.users, s.nextId, (u: User) => u.username == username && u.passwordHash == password)
  }

  /**
   * One row per user whose name and stored password both match, in id order; there is one
   * whenever such a user exists.
   */
  function LoginRows(s: Store, username: string, password: string): (r: seq<Row>)
    ensures forall i :: 0 <= i < |r| ==>
      && r[i].LoginRow? && r[i].userId in s.users && r[i].username == username
      && s.users[r[i].userId].passwordHash == password && r[i].roleId == s.users[r[i].userId].roleId
    ensures forall i, j :: 0 <= i < j < |r| ==> r[i].userId < r[j].userId
    ensures (exists k :: 1 <= k < s.nextId && k in s.users && s.users[k].username == username
                        && s.users[k].passwordHash == password) ==> r != []
  {
    var ids := LoginMatches(s, username, password);
    assert forall i :: 0 <= i < |ids| ==> ids[i] in ids;
    seq(|ids|, i requires 0 <= i < |ids| =>
      LoginRow(ids[i], s.users[ids[i]].username, s.users[ids[i]].roleId))
  }

  function IdRows(ids: seq<int>): seq<Row> {
    seq(|ids|, i requires 0 <= i < |ids| => IdRow(ids[i]))
  }

  // ---- SELECT p.product_id AS id, p.product_name AS name, pt.type_name AS product_type,
  //      p.min_partner_price AS price FROM products p JOIN product_types pt ON ... ----

  /** The inner join keeps a product only when its type row exists. */
  predicate Joinable(s: Store, id: int) {
    id in s.products && s.products[id].productTypeId in s.productTypes
  }

  /** The row the join produces for product `id`, its columns renamed for the screens. */
  function ProductView(s: Store, id: int): Row
    requires Joinable(s, id)
  {
    var p := s.products[id];
    ProductRow(id, p.productName, s.productTypes[p.productTypeId].typeName, p.minPartnerPrice)
  }

  /** The product rows of `rows` come in strictly increasing id order, so no id repeats. */
  predicate IdsIncreasing(rows: seq<Row>) {
    forall i, j :: 0 <= i < j < |rows| && rows[i].ProductRow? && rows[j].ProductRow? ==>
      rows[i].id < rows[j].id
  }

  function ProductRowsOf(s: Store, ids: seq<int>): (r: seq<Row>)
    ensures forall row :: row in r ==>
      row.ProductRow? && row.id in ids && Joinable(s, row.id) && row == ProductView(s, row.id)
    ensures forall id :: id in ids && Joinable(s, id) ==> ProductView(s, id) in r
  {
    if ids == [] then []
    else
      var rest := ProductRowsOf(s, ids[1..]);
      assert forall k :: k in ids <==> k == ids[0] || k in ids[1..];
      if Joinable(s, ids[0]) then [ProductView(s, ids[0])] + rest else rest
  }

  /** A scan in increasing id order yields its product rows in increasing id order. */
  lemma {:induction false} ProductRowsOfIncreasing(s: Store, ids: seq<int>)
    requires Increasing(ids)
    ensures IdsIncreasing(ProductRowsOf(s, ids))
    decreases |ids|
  {
    if ids != [] {
      assert Increasing(ids[1..]);
      ProductRowsOfIncreasing(s, ids[1..]);
      if Joinable(s, ids[0]) {
        HeadBelowRest(ids, ids[1..]);
        ConsIdsIncreasing(ProductView(s, ids[0]), ProductRowsOf(s, ids[1..]));
      }
    }
  }

  lemma ConsIdsIncreasing(head: Row, rest: seq<Row>)
    requires head.ProductRow? && IdsIncreasing(rest)
    requires forall row :: row in rest && row.ProductRow? ==> head.id < row.id
    ensures IdsIncreasing([head] + rest)
  {
    forall i, j | 0 <= i < j < |[head] + rest| && ([head] + rest)[i].ProductRow?
                  && ([head] + rest)[j].ProductRow?
      ensures ([head] + rest)[i].id < ([head] + rest)[j].id
    {
      assert ([head] + rest)[j] == rest[j - 1];
      assert rest[j - 1] in rest;
      if i > 0 {
        assert ([head] + rest)[i] == rest[i - 1];
      }
    }
  }

  /** Every joined product, in product id order. */
  function ProductRows(s: Store): (r: seq<Row>)
    ensures forall row :: row in r ==>
      row.ProductRow? && Joinable(s, row.id) && row == ProductView(s, row.id)
    ensures forall id :: 1 <= id < s.nextId && Joinable(s, id) ==> ProductView(s, id) in r
    ensures IdsIncreasing(r)
  {
    var ids := IdsFrom(s.products, 1, s.nextId);
    ProductRowsOfIncreasing(s, ids);
    ProductRowsOf(s, ids)
  }

  // ---- SELECT * FROM suppliers ... ----

  function SupplierView(s: Store, id: int): Row
    requires id in s.suppliers
  {
    var x := s.suppliers[id];
    SupplierRow(id, x.companyName, x.inn, x.contactPhone)
  }

  /** Every supplier row, in supplier id order. */
  function SupplierRows(s: Store): (r: seq<Row>)
    ensures forall row :: row in r ==>
      row.SupplierRow? && row.supplierId in s.suppliers && row == SupplierView(s, row.supplierId)
    ensures forall id :: 1 <= id < s.nextId && id in s.suppliers ==> SupplierView(s, id) in r
  {
    var ids := IdsFrom(s.suppliers, 1, s.nextId);
    var r := seq(|ids|, i requires 0 <= i < |ids| => SupplierView(s, ids[i]));
    assert forall id :: id in ids ==> SupplierView(s, id) in r by {
      forall id | id in ids ensures SupplierView(s, id) in r {
        var i :| 0 <= i < |ids| && ids[i] == id;
        assert r[i] == SupplierView(s, id);
      }
    }
    r
  }

  /** The order ORDER BY company_name uses here: code points, compared lexicographically. */
  predicate LexLe(a: string, b: string) {
    a == [] || (b != [] && (a[0] < b[0] || (a[0] == b[0] && LexLe(a[1..], b[1..]))))
  }

  lemma {:induction false} LexTotal(a: string, b: string)
    ensures LexLe(a, b) || LexLe(b, a)
  {
    if a != [] && b != [] && a[0] == b[0] {
      LexTotal(a[1..], b[1..]);
    }
  }

  function CompanyKey(row: Row): string {
    if row.SupplierRow? then row.companyName else []
  }

  predicate SortedByCompany(rows: seq<Row>) {
    forall i :: 0 < i < |rows| ==> LexLe(CompanyKey(rows[i - 1]), CompanyKey(rows[i]))
  }

  function InsertByCompany(x: Row, rows: seq<Row>): (r: seq<Row>)
    requires SortedByCompany(rows)
    ensures SortedByCompany(r)
    ensures multiset(r) == multiset(rows) + multiset{x}
    ensures |r| > 0 && (r[0] == x || (rows != [] && r[0] == rows[0]))
  {
    if rows == [] || LexLe(CompanyKey(x), CompanyKey(rows[0])) then
      [x] + rows
    else
      LexTotal(CompanyKey(x), CompanyKey(rows[0]));
      var rest := InsertByCompany(x, rows[1..]);
      assert rows == [rows[0]] + rows[1..];
      [rows[0]] + rest
  }

  /** ORDER BY company_name: the same rows, ordered by company name. */
  function SortByCompany(rows: seq<Row>): (r: seq<Row>)
    ensures SortedByCompany(r)
    ensures multiset(r) == multiset(rows)
  {
    if rows == [] then []
    else
      assert rows == [rows[0]] + rows[1..];
      InsertByCompany(rows[0], SortByCompany(rows[1..]))
  }

  /** The statements of `db/models.py`. */
  datatype Statement =
    | SelectLogin(username: string, password: string)
    | SelectUserIdByName(username: string)
    | SelectPartnerIdByInn(inn: string)
    | InsertPartnerRow(partner: Partner)
    | SelectLastInsertId
    | InsertUserRow(user: User)
    | SelectProducts
    | SelectSuppliers
    | InsertSupplierRow(supplier: Supplier)
    | UpdateSupplierRow(supplierId: int, supplier: Supplier)
    | DeleteSupplierRow(supplierId: int)
    | SelectSupplierById(supplierId: int)
  {
    /** The statement's text contains INSERT INTO. */
    predicate IsInsert() {
      InsertPartnerRow? || InsertUserRow? || InsertSupplierRow?
    }

    predicate IsRead() {
      !(InsertPartnerRow? || InsertUserRow? || InsertSupplierRow? || UpdateSupplierRow?
        || DeleteSupplierRow?)
    }
  }

  /**
   * What one statement does: the store afterwards, the rows it returns, and the cursor's
   * `lastrowid` (the id an INSERT handed out, 0 after any other statement).
   */
  datatype Effect = Effect(store: Store, rows: seq<Row>, insertId: int)

  /** Runs `st` on `s`; `lastInsertId` is the session's LAST_INSERT_ID(). */
  function Apply(s: Store, st: Statement, lastInsertId: int): (e: Effect)
    ensures st.IsRead() ==> e.store == s && e.insertId == 0
    ensures !st.IsRead() ==> e.rows == []
    ensures e.insertId != 0 ==> e.insertId == s.nextId && e.store.nextId == s.nextId + 1
    ensures 1 <= s.nextId ==> (e.insertId != 0 <==> st.IsInsert())
    ensures 1 <= s.nextId && e.insertId == 0 ==> e.store.nextId == s.nextId
    ensures s.Valid() ==> e.store.Valid()
  {
    match st
    case SelectLogin(u, p) => Effect(s, LoginRows(s, u, p), 0)
    case SelectUserIdByName(u) => Effect(s, IdRows(UsersNamed(s, u)), 0)
    case SelectPartnerIdByInn(inn) => Effect(s, IdRows(PartnersWithInn(s, inn)), 0)
    case InsertPartnerRow(p) => Effect(InsertPartner(s, p), [], s.nextId)
    case SelectLastInsertId => Effect(s, [IdRow(lastInsertId)], 0)
    case InsertUserRow(u) => Effect(InsertUser(s, u), [], s.nextId)
    case SelectProducts => Effect(s, ProductRows(s), 0)
    case SelectSuppliers => Effect(s, SortByCompany(SupplierRows(s)), 0)
    case InsertSupplierRow(x) => Effect(InsertSupplier(s, x), [], s.nextId)
    case UpdateSupplierRow(id, x) => Effect(UpdateSupplier(s, id, x), [], 0)
    case DeleteSupplierRow(id) => Effect(DeleteSupplier(s, id), [], 0)
    case SelectSupplierById(id) =>
      Effect(s, if id in s.suppliers then [SupplierView(s, id)] else [], 0)
  }
}
