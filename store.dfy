/**
 * The relational database the application talks to, as an in-memory store: one map per
 * table keyed by the row's AUTO_INCREMENT id, and the counter that hands out the next id.
 * Every SQL statement of the application is modelled by its effect on this store.
 *
 * Rows come back in ascending id order when a statement has no ORDER BY (InnoDB scans the
 * primary key), so "the first row" of a query is the matching row with the least id.
 */
module Store {
  import opened Wrappers

  datatype Partner = Partner(
    companyName: string,
    email: string,
    contactPhone: Option<string>,  // NULL when the statement does not set it
    directorName: string,
    inn: string,
    partnerTypeId: int)

  datatype User = User(
    username: string,
    passwordHash: string,
    roleId: int,
    partnerId: Option<int>)

  datatype Role = Role(roleName: string)

  datatype PartnerType = PartnerType(typeName: string)

  datatype Supplier = Supplier(companyName: string, inn: string, contactPhone: string)

  /** `min_partner_price` in the smallest currency unit. */
  datatype Product = Product(productName: string, productTypeId: int, minPartnerPrice: int)

  datatype ProductType = ProductType(typeName: string)

  datatype Store = Store(
    partners: map<int, Partner>,
    users: map<int, User>,
    roles: map<int, Role>,
    partnerTypes: map<int, PartnerType>,
    suppliers: map<int, Supplier>,
    products: map<int, Product>,
    productTypes: map<int, ProductType>,
    nextId: int)
  {
    /** Every id in use was handed out by the counter, which starts at 1. */
    ghost predicate Valid() {
      && 1 <= nextId
      && KeysBelow(partners, nextId) && KeysBelow(users, nextId) && KeysBelow(roles, nextId)
      && KeysBelow(partnerTypes, nextId) && KeysBelow(suppliers, nextId)
      && KeysBelow(products, nextId) && KeysBelow(productTypes, nextId)
    }
  }

  ghost predicate KeysBelow<T>(m: map<int, T>, hi: int) {
    forall k :: k in m ==> 1 <= k < hi
  }

  const Empty: Store := Store(map[], map[], map[], map[], map[], map[], map[], 1)

  predicate Increasing(ids: seq<int>) {
    forall i, j :: 0 <= i < j < |ids| ==> ids[i] < ids[j]
  }

  /** The ids of `m` in `[lo, hi)`, in ascending order: a primary-key scan. */
  function IdsFrom<T>(m: map<int, T>, lo: int, hi: int): (r: seq<int>)
    ensures forall k :: k in r <==> lo <= k < hi && k in m
    ensures Increasing(r)
    decreases hi - lo
  {
    if lo >= hi then []
    else
      var rest := IdsFrom(m, lo + 1, hi);
      if lo in m then ConsIncreasing(lo, rest); [lo] + rest else rest
  }

  /** The ids of `ids` whose row satisfies `keep`, in the order of `ids`: a WHERE clause. */
  function Where<T>(m: map<int, T>, ids: seq<int>, keep: T -> bool): (r: seq<int>)
    ensures forall k :: k in r <==> k in ids && k in m && keep(m[k])
    ensures Increasing(ids) ==> Increasing(r)
    ensures (forall k :: k in ids && k in m ==> !keep(m[k])) ==> r == []
  {
    if ids == [] then []
    else
      var rest := Where(m, ids[1..], keep);
      assert forall k :: k in ids <==> k == ids[0] || k in ids[1..];
      if ids[0] in m && keep(m[ids[0]]) then
        if Increasing(ids) then
          HeadBelowRest(ids, rest);
          ConsIncreasing(ids[0], rest);
          [ids[0]] + rest
        else
          [ids[0]] + rest
      else rest
  }

  lemma HeadBelowRest(ids: seq<int>, rest: seq<int>)
    requires |ids| > 0 && Increasing(ids) && forall k :: k in rest ==> k in ids[1..]
    ensures forall k :: k in rest ==> ids[0] < k
  {
    forall k | k in rest ensures ids[0] < k {
      var j :| 0 <= j < |ids[1..]| && ids[1..][j] == k;
      assert ids[0] < ids[j + 1];
    }
  }

  lemma ConsIncreasing(x: int, rest: seq<int>)
    requires Increasing(rest) && forall k :: k in rest ==> x < k
    ensures Increasing([x] + rest)
  {
    forall i, j | 0 <= i < j < |[x] + rest| ensures ([x] + rest)[i] < ([x] + rest)[j] {
      assert ([x] + rest)[j] == rest[j - 1];
      assert rest[j - 1] in rest;
    }
  }

  /** `SELECT id FROM m WHERE keep` over a store whose ids lie below `hi`. */
  function Select<T>(m: map<int, T>, hi: int, keep: T -> bool): (r: seq<int>)
    ensures forall k :: k in r <==> 1 <= k < hi && k in m && keep(m[k])
    ensures Increasing(r)
    ensures (forall k :: k in m ==> !keep(m[k])) ==> r == []
  {
    Where(m, IdsFrom(m, 1, hi), keep)
  }

  /** The first row of an ascending scan has the least id of all the rows it returns. */
  lemma {:induction false} FirstIsLeast(ids: seq<int>, k: int)
    requires Increasing(ids) && k in ids
    ensures ids[0] <= k
  {
    var i :| 0 <= i < |ids| && ids[i] == k;
    if i > 0 {
      assert ids[0] < ids[i];
    }
  }

  /**
   * The first row a filtered scan returns (`fetchone()`, `result[0]`, `LIMIT 1`) is the
   * matching row with the least id, and there is one whenever some row matches.
   */
  lemma {:induction false} SelectFirst<T>(m: map<int, T>, hi: int, keep: T -> bool)
    requires KeysBelow(m, hi)
    ensures var r := Select(m, hi, keep);
      && (r != [] ==> r[0] in m && keep(m[r[0]]) && forall k :: k in m && keep(m[k]) ==> r[0] <= k)
      && ((exists k :: k in m && keep(m[k])) ==> r != [])
  {
    var r := Select(m, hi, keep);
    if r != [] {
      assert r[0] in r;
      forall k | k in m && keep(m[k]) ensures r[0] <= k {
        FirstIsLeast(r, k);
      }
    }
    if exists k :: k in m && keep(m[k]) {
      var k :| k in m && keep(m[k]);
      assert k in r;
    }
  }

  // ---- the WHERE clauses the application issues ----

  function UsersOfPartner(s: Store, partnerId: int): seq<int> {
    Select(s.users, s.nextId, (u: User) => u.partnerId == Some(partnerId))
  }

  function UsersNamed(s: Store, username: string): seq<int> {
    Select(s.users, s.nextId, (u: User) => u.username == username)
  }

  function PartnersWithInn(s: Store, inn: string): seq<int> {
    Select(s.partners, s.nextId, (p: Partner) => p.inn == inn)
  }

  function RolesNamed(s: Store, roleName: string): seq<int> {
    Select(s.roles, s.nextId, (r: Role) => r.roleName == roleName)
  }

  function AllRoles(s: Store): seq<int> {
    Select(s.roles, s.nextId, (r: Role) => true)
  }

  // ---- the invariants the provisioning rules are meant to keep ----

  /** A partner has at most one login. */
  ghost predicate OneUserPerPartner(s: Store) {
    forall a, b ::
      (a in s.users && b in s.users && s.users[a].partnerId.Some?
       && s.users[a].partnerId == s.users[b].partnerId) ==> a == b
  }

  /** No two users share a username. */
  ghost predicate UniqueUsernames(s: Store) {
    forall a, b ::
      (a in s.users && b in s.users && s.users[a].username == s.users[b].username) ==> a == b
  }

  // ---- row effects of INSERT, UPDATE and DELETE ----

  function InsertPartner(s: Store, p: Partner): (r: Store)
    ensures r.nextId == s.nextId + 1
    ensures s.Valid() ==> r.Valid()
  {
    s.(partners := s.partners[s.nextId := p], nextId := s.nextId + 1)
  }

  function InsertUser(s: Store, u: User): (r: Store)
    ensures r.nextId == s.nextId + 1
    ensures s.Valid() ==> r.Valid()
  {
    s.(users := s.users[s.nextId := u], nextId := s.nextId + 1)
  }

  function InsertSupplier(s: Store, x: Supplier): (r: Store)
    ensures r.nextId == s.nextId + 1
    ensures s.Valid() ==> r.Valid()
  {
    s.(suppliers := s.suppliers[s.nextId := x], nextId := s.nextId + 1)
  }

  function InsertRole(s: Store, x: Role): (r: Store)
    ensures r.nextId == s.nextId + 1
    ensures s.Valid() ==> r.Valid()
  {
    s.(roles := s.roles[s.nextId := x], nextId := s.nextId + 1)
  }

  function InsertPartnerType(s: Store, x: PartnerType): (r: Store)
    ensures r.nextId == s.nextId + 1
    ensures s.Valid() ==> r.Valid()
  {
    s.(partnerTypes := s.partnerTypes[s.nextId := x], nextId := s.nextId + 1)
  }

  // ---- what each INSERT does to its table ----

  /** `InsertPartner` adds one row under a fresh id, keeps every existing row and no other table changes. */
  lemma InsertPartnerAddsOneRow(s: Store, p: Partner)
    requires s.Valid()
    ensures var r := InsertPartner(s, p);
      && s.nextId !in s.partners && r.partners.Keys == s.partners.Keys + {s.nextId} && r.partners[s.nextId] == p
      && (forall k :: k in s.partners ==> r.partners[k] == s.partners[k])
      && r.(partners := s.partners, nextId := s.nextId) == s
  {
  }

  /** `InsertUser` adds one row under a fresh id, keeps every existing row and no other table changes. */
  lemma InsertUserAddsOneRow(s: Store, u: User)
    requires s.Valid()
    ensures var r := InsertUser(s, u);
      && s.nextId !in s.users && r.users.Keys == s.users.Keys + {s.nextId} && r.users[s.nextId] == u
      && (forall k :: k in s.users ==> r.users[k] == s.users[k])
      && r.(users := s.users, nextId := s.nextId) == s
  {
  }

  /** `InsertSupplier` adds one row under a fresh id, keeps every existing row and no other table changes. */
  lemma InsertSupplierAddsOneRow(s: Store, x: Supplier)
    requires s.Valid()
    ensures var r := InsertSupplier(s, x);
      && s.nextId !in s.suppliers && r.suppliers.Keys == s.suppliers.Keys + {s.nextId} && r.suppliers[s.nextId] == x
      && (forall k :: k in s.suppliers ==> r.suppliers[k] == s.suppliers[k])
      && r.(suppliers := s.suppliers, nextId := s.nextId) == s
  {
  }

  /** `InsertRole` adds one row under a fresh id, keeps every existing row and no other table changes. */
  lemma InsertRoleAddsOneRow(s: Store, x: Role)
    requires s.Valid()
    ensures var r := InsertRole(s, x);
      && s.nextId !in s.roles && r.roles.Keys == s.roles.Keys + {s.nextId} && r.roles[s.nextId] == x
      && (forall k :: k in s.roles ==> r.roles[k] == s.roles[k])
      && r.(roles := s.roles, nextId := s.nextId) == s
  {
  }

  /** `InsertPartnerType` adds one row under a fresh id, keeps every existing row and no other table changes. */
  lemma InsertPartnerTypeAddsOneRow(s: Store, x: PartnerType)
    requires s.Valid()
    ensures var r := InsertPartnerType(s, x);
      && s.nextId !in s.partnerTypes && r.partnerTypes.Keys == s.partnerTypes.Keys + {s.nextId} && r.partnerTypes[s.nextId] == x
      && (forall k :: k in s.partnerTypes ==> r.partnerTypes[k] == s.partnerTypes[k])
      && r.(partnerTypes := s.partnerTypes, nextId := s.nextId) == s
  {
  }

  /** `UPDATE partners SET ... WHERE partner_id = id`: no row matches a missing id. */
  function UpdatePartner(s: Store, id: int, p: Partner): (r: Store)
    ensures r.nextId == s.nextId
    ensures s.Valid() ==> r.Valid()
    ensures r.partners.Keys == s.partners.Keys && (id in s.partners ==> r.partners[id] == p)
    ensures forall k :: k in s.partners && k != id ==> r.partners[k] == s.partners[k]
    ensures r.(partners := s.partners) == s
  {
    if id in s.partners then s.(partners := s.partners[id := p]) else s
  }

  function UpdateUser(s: Store, id: int, u: User): (r: Store)
    ensures r.nextId == s.nextId
    ensures s.Valid() ==> r.Valid()
    ensures r.users.Keys == s.users.Keys && (id in s.users ==> r.users[id] == u)
    ensures forall k :: k in s.users && k != id ==> r.users[k] == s.users[k]
    ensures r.(users := s.users) == s
  {
    if id in s.users then s.(users := s.users[id := u]) else s
  }

  function UpdateSupplier(s: Store, id: int, x: Supplier): (r: Store)
    ensures r.nextId == s.nextId
    ensures s.Valid() ==> r.Valid()
    ensures r.suppliers.Keys == s.suppliers.Keys && (id in s.suppliers ==> r.suppliers[id] == x)
    ensures forall k :: k in s.suppliers && k != id ==> r.suppliers[k] == s.suppliers[k]
    ensures r.(suppliers := s.suppliers) == s
  {
    if id in s.suppliers then s.(suppliers := s.suppliers[id := x]) else s
  }

  function DeleteUser(s: Store, id: int): (r: Store)
    ensures r.nextId == s.nextId
    ensures s.Valid() ==> r.Valid()
    ensures r.users.Keys == s.users.Keys - {id}
    ensures forall k :: k in r.users ==> r.users[k] == s.users[k]
    ensures r.(users := s.users) == s
  {
    s.(users := s.users - {id})
  }

  /** The users rows that do not belong to the partner, unchanged. */
  function UsersNotOf(users: map<int, User>, partnerId: int): (r: map<int, User>)
    ensures forall k :: k in r ==> k in users && r[k] == users[k] && r[k].partnerId != Some(partnerId)
    ensures forall k :: k in users && users[k].partnerId != Some(partnerId) ==> k in r
  {
    map k | k in users && users[k].partnerId != Some(partnerId) :: users[k]
  }

  /** `DELETE FROM users WHERE partner_id = id` */
  function DeleteUsersOfPartner(s: Store, partnerId: int): (r: Store)
    ensures r.nextId == s.nextId
    ensures s.Valid() ==> r.Valid()
    ensures forall k :: k in r.users ==>
      k in s.users && r.users[k] == s.users[k] && r.users[k].partnerId != Some(partnerId)
    ensures forall k :: k in s.users && s.users[k].partnerId != Some(partnerId) ==> k in r.users
    ensures r.(users := s.users) == s
  {
    s.(users := UsersNotOf(s.users, partnerId))
  }

  function DeletePartner(s: Store, id: int): (r: Store)
    ensures r.nextId == s.nextId
    ensures s.Valid() ==> r.Valid()
    ensures r.partners.Keys == s.partners.Keys - {id}
    ensures forall k :: k in r.partners ==> r.partners[k] == s.partners[k]
    ensures r.(partners := s.partners) == s
  {
    s.(partners := s.partners - {id})
  }

  function DeleteSupplier(s: Store, id: int): (r: Store)
    ensures r.nextId == s.nextId
    ensures s.Valid() ==> r.Valid()
    ensures r.suppliers.Keys == s.suppliers.Keys - {id}
    ensures forall k :: k in r.suppliers ==> r.suppliers[k] == s.suppliers[k]
    ensures r.(suppliers := s.suppliers) == s
  {
    s.(suppliers := s.suppliers - {id})
  }

  /**
   * ROLLBACK: the tables return to their committed contents, but the AUTO_INCREMENT counter
   * keeps the ids handed out in the meantime (InnoDB does not reuse them).
   */
  function RolledBack(committed: Store, pending: Store): (r: Store)
    ensures r.nextId == pending.nextId
    ensures r.(nextId := committed.nextId) == committed
  {
    committed.(nextId := pending.nextId)
  }

  lemma RolledBackValid(committed: Store, pending: Store)
    requires committed.Valid() && pending.Valid() && committed.nextId <= pending.nextId
    ensures RolledBack(committed, pending).Valid()
  {
  }

  /**
   * Adding a user for a partner that has none, under a free username, keeps both
   * provisioning invariants.
   */
  lemma InsertUserKeepsInvariants(s: Store, u: User)
    requires s.Valid() && OneUserPerPartner(s) && UniqueUsernames(s)
    requires u.partnerId.Some? ==> UsersOfPartner(s, u.partnerId.value) == []
    requires UsersNamed(s, u.username) == []
    ensures OneUserPerPartner(InsertUser(s, u)) && UniqueUsernames(InsertUser(s, u))
  {
  }

  /**
   * DELETE FROM users WHERE partner_id = id, then DELETE FROM partners WHERE partner_id = id:
   * the partner and every one of its users are gone, and every other row is as it was.
   */
  lemma DeletePartnerCascades(s: Store, id: int)
    ensures var t := DeletePartner(DeleteUsersOfPartner(s, id), id);
      && id !in t.partners
      && UsersOfPartner(t, id) == []
      && (forall k :: k in t.partners <==> k in s.partners && k != id)
      && (forall k :: k in t.partners ==> t.partners[k] == s.partners[k])
      && (forall k :: k in t.users <==> k in s.users && s.users[k].partnerId != Some(id))
      && (forall k :: k in t.users ==> t.users[k] == s.users[k])
      && t.roles == s.roles && t.partnerTypes == s.partnerTypes && t.suppliers == s.suppliers
      && t.products == s.products && t.productTypes == s.productTypes && t.nextId == s.nextId
  {
  }

  /** Deleting keeps the provisioning invariants: they only speak of rows that remain. */
  lemma DeletePartnerKeepsInvariants(s: Store, id: int)
    requires OneUserPerPartner(s) && UniqueUsernames(s)
    ensures OneUserPerPartner(DeletePartner(DeleteUsersOfPartner(s, id), id))
    ensures UniqueUsernames(DeletePartner(DeleteUsersOfPartner(s, id), id))
  {
  }
}
