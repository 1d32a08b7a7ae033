/**
 * `db/models.py`: the data-access functions the windows call, over the shared connector.
 *
 * Each operation is a function on the connector's `Session`, giving the session afterwards
 * and the Python return value, and a method on the `DatabaseConnector` object that performs
 * the same calls step by step and is proved to agree with it. A driver error of a statement
 * is a `bool` parameter; a refused connection is another.
 */
module Models {
  import opened Wrappers
  import opened Store
  import opened Sql
  import opened Connector

  /** `result[0] if result else None` */
  function FirstRow(o: Outcome): (r: Option<Row>)
    ensures r.Some? <==> Truthy(o) && o.Rows?
    ensures r.Some? ==> r.value == o.rows[0]
  {
    if o.Rows? && o.rows != [] then Some(o.rows[0]) else None
  }

  // ---- get_user_by_login ----

  predicate IsLogin(u: User, username: string, password: string) {
    u.username == username && u.passwordHash == password
  }

  /**
   * `get_user_by_login(username, password)`: reconnects, then looks the pair up with the
   * password compared as stored (no hashing). The answer is the matching user with the least
   * id, and there is one whenever some committed user matches and nothing fails.
   */
  function UserByLogin(s: Session, username: string, password: string, refused: bool, fault: bool)
    : (r: (Session, Option<Row>))
    requires s.Valid()
    ensures r.0.Valid()
    ensures refused || fault ==> r.1 == None
    ensures r.1.Some? ==>
      var row := r.1.value;
      && row.LoginRow? && row.userId in s.committed.users
      && IsLogin(s.committed.users[row.userId], username, password)
      && row.username == username && row.roleId == s.committed.users[row.userId].roleId
      && forall k :: k in s.committed.users && IsLogin(s.committed.users[k], username, password)
           ==> row.userId <= k
    ensures (!refused && !fault
             && exists k :: k in s.committed.users && IsLogin(s.committed.users[k], username, password))
      ==> r.1.Some?
  {
    var c := ConnectTo(s, refused);
    if !c.1 then (c.0, None)
    else
      var t := c.0.pending;
      SelectFirst(t.users, t.nextId,
        (u: User) => u.username == username && u.passwordHash == password);
      var e := Execute(c.0, SelectLogin(username, password), true, false, fault);
      (e.0, FirstRow(e.1))
  }

  method GetUserByLogin(db: DatabaseConnector, username: string, password: string,
                        refused: bool, fault: bool)
    returns (user: Option<Row>)
    requires db.Valid()
    modifies db
    ensures db.Valid()
    ensures (db.State(), user) == UserByLogin(old(db.State()), username, password, refused, fault)
  {
    var connected := db.Connect(refused);
    if !connected {
      return None;
    }
    var result := db.ExecuteQuery(SelectLogin(username, password), true, false, fault);
    return FirstRow(result);
  }

  // ---- check_username_exists, check_inn_exists ----

  /** `check_username_exists`: True only when the lookup ran and found a user of that name. */
  function UsernameExists(s: Session, username: string, fault: bool): (r: (Session, bool))
    requires s.Valid()
    ensures r.0 == Execute(s, SelectUserIdByName(username), true, false, fault).0
    ensures r.1 <==>
      s.IsOpen() && !fault && exists k :: k in s.pending.users && s.pending.users[k].username == username
  {
    var t := s.pending;
    SelectFirst(t.users, t.nextId, (u: User) => u.username == username);
    var e := Execute(s, SelectUserIdByName(username), true, false, fault);
    (e.0, Truthy(e.1))
  }

  method CheckUsernameExists(db: DatabaseConnector, username: string, fault: bool)
    returns (exists_: bool)
    requires db.Valid()
    modifies db
    ensures db.Valid()
    ensures (db.State(), exists_) == UsernameExists(old(db.State()), username, fault)
  {
    var result := db.ExecuteQuery(SelectUserIdByName(username), true, false, fault);
    return Truthy(result);
  }

  /** `check_inn_exists`: True only when the lookup ran and found a partner with that INN. */
  function InnExists(s: Session, inn: string, fault: bool): (r: (Session, bool))
    requires s.Valid()
    ensures r.0 == Execute(s, SelectPartnerIdByInn(inn), true, false, fault).0
    ensures r.1 <==>
      s.IsOpen() && !fault && exists k :: k in s.pending.partners && s.pending.partners[k].inn == inn
  {
    var t := s.pending;
    SelectFirst(t.partners, t.nextId, (p: Partner) => p.inn == inn);
    var e := Execute(s, SelectPartnerIdByInn(inn), true, false, fault);
    (e.0, Truthy(e.1))
  }

  method CheckInnExists(db: DatabaseConnector, inn: string, fault: bool) returns (exists_: bool)
    requires db.Valid()
    modifies db
    ensures db.Valid()
    ensures (db.State(), exists_) == InnExists(old(db.State()), inn, fault)
  {
    var result := db.ExecuteQuery(SelectPartnerIdByInn(inn), true, false, fault);
    return Truthy(result);
  }

  // ---- register_new_user ----

  /** The `user_data` record the registration window submits. */
  datatype Registration = Registration(
    username: string,
    passwordHash: string,
    roleId: int,
    companyName: string,
    inn: string,
    directorName: string,
    email: string)

  datatype RegisterOutcome =
    | Registered
    | ConnectionFailed
    | UsernameTaken
    | InnTaken
    | PartnerNotCreated
    | PartnerIdUnavailable
    | UserNotCreated

  /** The `(success, message)` pair `register_new_user` returns. */
  function Reply(o: RegisterOutcome): (r: (bool, string))
    ensures r.0 <==> o == Registered
  {
    match o
    case Registered => (true, "Регистрация прошла успешно")
    case ConnectionFailed => (false, "Ошибка подключения к базе данных")
    case UsernameTaken => (false, "Пользователь с таким логином уже существует")
    case InnTaken => (false, "Партнер с таким ИНН уже зарегистрирован")
    case PartnerNotCreated => (false, "Ошибка при создании партнера")
    case PartnerIdUnavailable => (false, "Ошибка при получении ID партнера")
    case UserNotCreated => (false, "Ошибка при создании пользователя")
  }

  /** Which step's driver call fails: the connection, the two lookups, the three statements. */
  datatype RegisterFaults = RegisterFaults(
    refused: bool,
    usernameCheck: bool,
    innCheck: bool,
    partnerInsert: bool,
    lastId: bool,
    userInsert: bool)

  /** The partner row: default type 1 and no contact phone. */
  function PartnerOf(d: Registration): Partner {
    Partner(d.companyName, d.email, None, d.directorName, d.inn, 1)
  }

  function UserOf(d: Registration, partnerId: int): User {
    User(d.username, d.passwordHash, d.roleId, Some(partnerId))
  }

  /** `partner_id_result[0]['partner_id']` */
  function FirstId(o: Outcome): int {
    if o.Rows? && o.rows != [] && o.rows[0].IdRow? then o.rows[0].id else 0
  }

  /**
   * `register_new_user(user_data)`: reconnect; refuse a taken username, then a taken INN;
   * insert and commit the partner; read its id back; insert and commit the user.
   */
  function Register(s: Session, d: Registration, f: RegisterFaults): (r: (Session, RegisterOutcome))
    requires s.Valid()
    ensures r.0.Valid()
  {
    var c := ConnectTo(s, f.refused);
    if !c.1 then (c.0, ConnectionFailed)
    else
      var u := UsernameExists(c.0, d.username, f.usernameCheck);
      if u.1 then (u.0, UsernameTaken)
      else
        var i := InnExists(u.0, d.inn, f.innCheck);
        if i.1 then (i.0, InnTaken)
        else Provision(i.0, d, f)
  }

  /** The three statements after the checks: partner, its id, user; each step may fail. */
  function Provision(s: Session, d: Registration, f: RegisterFaults): (r: (Session, RegisterOutcome))
    requires s.Valid()
    ensures r.0.Valid()
    ensures r.1 in {PartnerNotCreated, PartnerIdUnavailable, UserNotCreated, Registered}
  {
    var p := Execute(s, InsertPartnerRow(PartnerOf(d)), false, true, f.partnerInsert);
    if p.1 == Flag(false) then (p.0, PartnerNotCreated)
    else
      var l := Execute(p.0, SelectLastInsertId, true, false, f.lastId);
      if !Truthy(l.1) then (l.0, PartnerIdUnavailable)
      else
        var n := Execute(l.0, InsertUserRow(UserOf(d, FirstId(l.1))), false, true, f.userInsert);
        if n.1 == Flag(false) then (n.0, UserNotCreated) else (n.0, Registered)
  }

  method RegisterNewUser(db: DatabaseConnector, d: Registration, f: RegisterFaults)
    returns (reply: (bool, string))
    requires db.Valid()
    modifies db
    ensures db.Valid()
    ensures var r := Register(old(db.State()), d, f); db.State() == r.0 && reply == Reply(r.1)
  {
    var connected := db.Connect(f.refused);
    if !connected {
      return Reply(ConnectionFailed);
    }
    var usernameTaken := CheckUsernameExists(db, d.username, f.usernameCheck);
    if usernameTaken {
      return Reply(UsernameTaken);
    }
    var innTaken := CheckInnExists(db, d.inn, f.innCheck);
    if innTaken {
      return Reply(InnTaken);
    }
    var outcome := InsertPartnerAndUser(db, d, f);
    return Reply(outcome);
  }

  /** The `try` block of `register_new_user`. */
  method InsertPartnerAndUser(db: DatabaseConnector, d: Registration, f: RegisterFaults)
    returns (outcome: RegisterOutcome)
    requires db.Valid()
    modifies db
    ensures db.Valid()
    ensures (db.State(), outcome) == Provision(old(db.State()), d, f)
  {
    var partnerResult := db.ExecuteQuery(InsertPartnerRow(PartnerOf(d)), false, true, f.partnerInsert);
    if partnerResult == Flag(false) {
      return PartnerNotCreated;
    }
    var idResult := db.ExecuteQuery(SelectLastInsertId, true, false, f.lastId);
    if !Truthy(idResult) {
      return PartnerIdUnavailable;
    }
    var partnerId := FirstId(idResult);
    var userResult := db.ExecuteQuery(InsertUserRow(UserOf(d, partnerId)), false, true, f.userInsert);
    if userResult == Flag(false) {
      return UserNotCreated;
    }
    return Registered;
  }

  /** The database as it stands outside the session's open transaction, which is empty here. */
  function CommittedAfter(s: Session, d: Registration, f: RegisterFaults): Store
    requires s.Valid()
  {
    Register(s, d, f).0.committed
  }

  /** A taken username is reported before the INN is looked at, and nothing is written. */
  lemma RegisterChecksUsernameFirst(s: Session, d: Registration, f: RegisterFaults)
    requires s.Valid() && !f.refused && !f.usernameCheck
    requires exists k :: k in s.committed.users && s.committed.users[k].username == d.username
    ensures Register(s, d, f).1 == UsernameTaken
    ensures CommittedAfter(s, d, f) == s.committed
  {
  }

  /** With a free username, a taken INN is refused and nothing is written. */
  lemma RegisterRefusesTakenInn(s: Session, d: Registration, f: RegisterFaults)
    requires s.Valid() && !f.refused && !f.usernameCheck && !f.innCheck
    requires forall k :: k in s.committed.users ==> s.committed.users[k].username != d.username
    requires exists k :: k in s.committed.partners && s.committed.partners[k].inn == d.inn
    ensures Register(s, d, f).1 == InnTaken
    ensures CommittedAfter(s, d, f) == s.committed
  {
  }

  const NO_FAULTS := RegisterFaults(false, false, false, false, false, false)

  /**
   * On an open connection with no failure, the three statements commit the partner under the
   * next id and then its user, which refers to that id.
   */
  lemma {:induction false} ProvisionSucceeds(s: Session, d: Registration)
    requires s.Valid() && s.IsOpen()
    ensures var r := Provision(s, d, NO_FAULTS);
      && r.1 == Registered
      && r.0.committed
         == InsertUser(InsertPartner(s.pending, PartnerOf(d)), UserOf(d, s.pending.nextId))
  {
    var p := Execute(s, InsertPartnerRow(PartnerOf(d)), false, true, false);
    var l := Execute(p.0, SelectLastInsertId, true, false, false);
    assert l.1 == Rows([IdRow(s.pending.nextId)]);
  }

  /**
   * With nothing failing and both values free, registration succeeds: one partner of type 1
   * under the next id, and one user under the id after it that refers to that partner.
   */
  lemma {:induction false} RegisterSucceeds(s: Session, d: Registration)
    requires s.Valid()
    requires forall k :: k in s.committed.users ==> s.committed.users[k].username != d.username
    requires forall k :: k in s.committed.partners ==> s.committed.partners[k].inn != d.inn
    ensures Register(s, d, NO_FAULTS).1 == Registered
    ensures s.pending.nextId !in s.committed.partners && s.pending.nextId + 1 !in s.committed.users
    ensures var pid := s.pending.nextId;
      var t := CommittedAfter(s, d, NO_FAULTS);
      && t.partners == s.committed.partners[pid := PartnerOf(d)]
      && t.users == s.committed.users[pid + 1 := UserOf(d, pid)]
    ensures var t := CommittedAfter(s, d, NO_FAULTS);
      t.suppliers == s.committed.suppliers && t.roles == s.committed.roles
      && t.products == s.committed.products
  {
    var c := ConnectTo(s, false).0;
    LookupsPass(s, d, NO_FAULTS);
    ProvisionSucceeds(c, d);
    PartnerThenUser(c.pending, d);
    assert c.pending == s.committed.(nextId := s.pending.nextId);
  }

  /** Helper: the rows the two INSERTs of a registration add to the tables `base` holds. */
  lemma PartnerThenUser(base: Store, d: Registration)
    ensures var pid := base.nextId;
      var t := InsertUser(InsertPartner(base, PartnerOf(d)), UserOf(d, pid));
      && t.partners == base.partners[pid := PartnerOf(d)]
      && t.users == base.users[pid + 1 := UserOf(d, pid)]
      && t.suppliers == base.suppliers && t.roles == base.roles && t.products == base.products
  {
  }

  /**
   * Helper: on a new connection, lookups that answer "not taken" (the name and the INN are
   * free, or the lookup fails) leave the session as it was, so the three statements decide.
   */
  lemma {:induction false} LookupsPass(s: Session, d: Registration, f: RegisterFaults)
    requires s.Valid() && !f.refused
    requires f.usernameCheck
             || forall k :: k in s.committed.users ==> s.committed.users[k].username != d.username
    requires f.innCheck
             || forall k :: k in s.committed.partners ==> s.committed.partners[k].inn != d.inn
    ensures Register(s, d, f) == Provision(ConnectTo(s, false).0, d, f)
  {
    var c := ConnectTo(s, false).0;
    assert c.pending == s.committed.(nextId := s.pending.nextId);
    var u := UsernameExists(c, d.username, f.usernameCheck);
    assert !u.1 && u.0 == c;
    var i := InnExists(u.0, d.inn, f.innCheck);
    assert !i.1 && i.0 == c;
  }

  /**
   * After a registration that nothing interrupts, looking up the same login and password finds
   * the new user, and no other: the lookup answers with its id and its role.
   */
  lemma {:induction false} RegisteredUserIsFound(s: Session, d: Registration)
    requires s.Valid()
    requires forall k :: k in s.committed.users ==> s.committed.users[k].username != d.username
    requires forall k :: k in s.committed.partners ==> s.committed.partners[k].inn != d.inn
    ensures var t := Register(s, d, NO_FAULTS).0;
      var user := UserByLogin(t, d.username, d.passwordHash, false, false).1;
      && user.Some? && user.value.LoginRow?
      && user.value.userId == s.pending.nextId + 1
      && user.value.username == d.username && user.value.roleId == d.roleId
  {
    RegisterSucceeds(s, d);
    var t := Register(s, d, NO_FAULTS).0;
    LoginFindsOnlyMatch(t, s.pending.nextId + 1, d.username, d.passwordHash);
  }

  /**
   * Helper for `RegisteredUserIsFound`: a lookup by login answers with the one committed user
   * that has that login.
   */
  lemma LoginFindsOnlyMatch(t: Session, id: int, username: string, password: string)
    requires t.Valid()
    requires id in t.committed.users && IsLogin(t.committed.users[id], username, password)
    requires forall k ::
               k in t.committed.users && IsLogin(t.committed.users[k], username, password) ==> k == id
    ensures var user := UserByLogin(t, username, password, false, false).1;
      && user.Some? && user.value.LoginRow? && user.value.userId == id
      && user.value.username == username && user.value.roleId == t.committed.users[id].roleId
  {
  }

  /**
   * When reading the id back or inserting the user fails, the partner committed by the first
   * statement stays, and the user is not added.
   */
  lemma {:induction false} ProvisionPartialFailure(s: Session, d: Registration, f: RegisterFaults)
    requires s.Valid()
    requires Provision(s, d, f).1 == PartnerIdUnavailable || Provision(s, d, f).1 == UserNotCreated
    ensures Provision(s, d, f).0.committed == InsertPartner(s.pending, PartnerOf(d))
  {
    var p := Execute(s, InsertPartnerRow(PartnerOf(d)), false, true, f.partnerInsert);
    assert p.1 != Flag(false);
    assert s.IsOpen() && !f.partnerInsert;
    assert p.0.committed == InsertPartner(s.pending, PartnerOf(d));
  }

  /**
   * When reading the id back or inserting the user fails, the partner row stays committed and
   * no user is added.
   */
  lemma {:induction false} RegisterPartialFailureKeepsPartner(s: Session, d: Registration,
                                                              f: RegisterFaults)
    requires s.Valid()
    requires Register(s, d, f).1 == PartnerIdUnavailable || Register(s, d, f).1 == UserNotCreated
    ensures var pid := s.pending.nextId;
      var t := CommittedAfter(s, d, f);
      t.partners == s.committed.partners[pid := PartnerOf(d)] && t.users == s.committed.users
  {
    var c := ConnectTo(s, f.refused);
    assert c.1;
    var u := UsernameExists(c.0, d.username, f.usernameCheck);
    assert !u.1;
    var i := InnExists(u.0, d.inn, f.innCheck);
    assert !i.1;
    assert Register(s, d, f) == Provision(i.0, d, f);
    assert i.0.pending == s.committed.(nextId := s.pending.nextId);
    ProvisionPartialFailure(i.0, d, f);
  }

  /**
   * What the three statements commit, by how far they get: nothing when the partner insert
   * fails (and then no other statement runs), the partner alone when reading its id back or
   * inserting the user fails, and both rows on success, which nothing but a driver error stops.
   */
  lemma {:induction false} ProvisionCommits(s: Session, d: Registration, f: RegisterFaults)
    requires s.Valid() && s.IsOpen()
    ensures var r := Provision(s, d, f);
      && (r.1 == PartnerNotCreated <==> f.partnerInsert)
      && (!f.partnerInsert && !f.lastId && !f.userInsert ==> r.1 == Registered)
      && (r.1 == PartnerNotCreated ==> r.0.committed == s.committed)
      && (r.1 == PartnerIdUnavailable || r.1 == UserNotCreated ==>
            r.0.committed == InsertPartner(s.pending, PartnerOf(d)))
      && (r.1 == Registered ==>
            r.0.committed
            == InsertUser(InsertPartner(s.pending, PartnerOf(d)), UserOf(d, s.pending.nextId)))
  {
    var r := Provision(s, d, f);
    if r.1 == PartnerIdUnavailable || r.1 == UserNotCreated {
      ProvisionPartialFailure(s, d, f);
    } else if !f.partnerInsert {
      var p := Execute(s, InsertPartnerRow(PartnerOf(d)), false, true, false);
      if !f.lastId {
        var l := Execute(p.0, SelectLastInsertId, true, false, false);
        assert l.1 == Rows([IdRow(s.pending.nextId)]);
      }
    }
  }

  /**
   * What `register_new_user` commits, by outcome: the connection and the two lookups write
   * nothing, so everything written comes from the three statements, on top of the committed
   * tables; and an outcome past the lookups means the username was free when its lookup ran.
   */
  lemma {:induction false} RegisterCommits(s: Session, d: Registration, f: RegisterFaults)
    requires s.Valid()
    ensures var r := Register(s, d, f);
      var base := s.committed.(nextId := s.pending.nextId);
      && (r.1 == ConnectionFailed <==> f.refused)
      && (r.1 == PartnerNotCreated ==> f.partnerInsert)
      && (r.1 in {ConnectionFailed, UsernameTaken, InnTaken, PartnerNotCreated} ==>
            r.0.committed == s.committed)
      && (r.1 == PartnerIdUnavailable || r.1 == UserNotCreated ==>
            r.0.committed == InsertPartner(base, PartnerOf(d)))
      && (r.1 == Registered ==>
            r.0.committed == InsertUser(InsertPartner(base, PartnerOf(d)), UserOf(d, s.pending.nextId)))
      && (!f.usernameCheck && r.1 != ConnectionFailed && r.1 != UsernameTaken ==>
            forall k :: k in s.committed.users ==> s.committed.users[k].username != d.username)
  {
    var c := ConnectTo(s, f.refused);
    if c.1 {
      var u := UsernameExists(c.0, d.username, f.usernameCheck);
      if !u.1 {
        var i := InnExists(u.0, d.inn, f.innCheck);
        if !i.1 {
          assert i.0.pending == s.committed.(nextId := s.pending.nextId);
          assert i.0.committed == s.committed && i.0.IsOpen();
          ProvisionCommits(i.0, d, f);
        }
      }
    }
  }

  /** When the partner insert fails, no user insert follows and nothing is written at all. */
  lemma {:induction false} RegisterPartnerFailureWritesNothing(s: Session, d: Registration,
                                                               f: RegisterFaults)
    requires s.Valid() && Register(s, d, f).1 == PartnerNotCreated
    ensures f.partnerInsert
    ensures CommittedAfter(s, d, f) == s.committed
  {
    RegisterCommits(s, d, f);
  }

  /**
   * Registration keeps usernames unique and gives a partner at most one login, provided its
   * username lookup runs and no existing user already refers to the id the new partner gets.
   */
  lemma {:induction false} RegisterKeepsInvariants(s: Session, d: Registration, f: RegisterFaults)
    requires s.Valid() && !f.usernameCheck
    requires OneUserPerPartner(s.committed) && UniqueUsernames(s.committed)
    requires forall k :: k in s.committed.users ==> s.committed.users[k].partnerId != Some(s.pending.nextId)
    ensures OneUserPerPartner(CommittedAfter(s, d, f)) && UniqueUsernames(CommittedAfter(s, d, f))
  {
    RegisterCommits(s, d, f);
    var r := Register(s, d, f);
    var base := s.committed.(nextId := s.pending.nextId);
    var t := InsertPartner(base, PartnerOf(d));
    assert t.users == s.committed.users;
    if r.1 == Registered {
      RolledBackValid(s.committed, s.pending);
      var pid := s.pending.nextId;
      InsertUserKeepsInvariants(t, UserOf(d, pid));
    }
  }

  /**
   * `check_username_exists` answers False when its own query fails, so a driver error in that
   * lookup lets a taken username through: the registration succeeds and two users then share
   * the name.
   */
  lemma {:induction false} FailedUsernameCheckAdmitsDuplicate(s: Session, d: Registration)
    requires s.Valid()
    requires exists k :: k in s.committed.users && s.committed.users[k].username == d.username
    requires forall k :: k in s.committed.partners ==> s.committed.partners[k].inn != d.inn
    ensures var f := NO_FAULTS.(usernameCheck := true);
      Register(s, d, f).1 == Registered && !UniqueUsernames(CommittedAfter(s, d, f))
  {
    var f := NO_FAULTS.(usernameCheck := true);
    var c := ConnectTo(s, false).0;
    LookupsPass(s, d, f);
    ProvisionCommits(c, d, f);
    var k :| k in s.committed.users && s.committed.users[k].username == d.username;
    var pid := s.pending.nextId;
    var t0 := InsertPartner(c.pending, PartnerOf(d));
    var t := InsertUser(t0, UserOf(d, pid));
    assert CommittedAfter(s, d, f) == t;
    assert t0.users == s.committed.users && t0.nextId == pid + 1;
    assert t.users[k] == s.committed.users[k] && t.users[pid + 1] == UserOf(d, pid);
  }

  // ---- update_product, get_all_products ----

  /** `update_product` has no body: it changes nothing and returns `None`. */
  method UpdateProduct(db: DatabaseConnector, productId: int, name: string, productType: string,
                       price: real)
    returns (r: Option<bool>)
    ensures r == None
  {
    return None;
  }

  /**
   * `get_all_products()`: every product whose type exists, as (id, name, product type,
   * price), in id order; `[]` when there is no connection or the query fails.
   */
  function ProductList(s: Session, fault: bool): (r: (Session, seq<Row>))
    requires s.Valid()
    ensures r.0.Valid() && r.0.committed == s.committed
    ensures forall row :: row in r.1 ==>
      row.ProductRow? && Joinable(s.pending, row.id) && row == ProductView(s.pending, row.id)
    ensures s.IsOpen() && !fault ==>
      forall id :: Joinable(s.pending, id) ==> ProductView(s.pending, id) in r.1
    ensures !s.IsOpen() || fault ==> r.1 == []
    ensures IdsIncreasing(r.1)
  {
    var e := Execute(s, SelectProducts, true, false, fault);
    (e.0, if e.1.NoneValue? || e.1 == Flag(false) then [] else e.1.rows)
  }

  method GetAllProducts(db: DatabaseConnector, fault: bool) returns (products: seq<Row>)
    requires db.Valid()
    modifies db
    ensures db.Valid()
    ensures (db.State(), products) == ProductList(old(db.State()), fault)
  {
    var result := db.ExecuteQuery(SelectProducts, true, false, fault);
    if result.NoneValue? || result == Flag(false) {
      return [];
    }
    return result.rows;
  }

  // ---- the supplier functions ----

  /** The `supplier_data` dict: `contact_phone` may be missing. */
  datatype SupplierData = SupplierData(companyName: string, inn: string, contactPhone: Option<string>)

  /** `supplier_data.get('contact_phone', '')` */
  function SupplierOf(x: SupplierData): (r: Supplier)
    ensures r.companyName == x.companyName && r.inn == x.inn
    ensures r.contactPhone == (if x.contactPhone.Some? then x.contactPhone.value else "")
  {
    Supplier(x.companyName, x.inn, if x.contactPhone.Some? then x.contactPhone.value else "")
  }

  /**
   * `get_all_suppliers()`: every supplier, ordered by company name; `result or []`, so `[]`
   * when the query fails or finds nothing.
   */
  function SupplierList(s: Session, fault: bool): (r: (Session, seq<Row>))
    requires s.Valid()
    ensures r.0.Valid() && r.0.committed == s.committed
    ensures SortedByCompany(r.1)
    ensures s.IsOpen() && !fault ==> multiset(r.1) == multiset(SupplierRows(s.pending))
    ensures !s.IsOpen() || fault ==> r.1 == []
  {
    var e := Execute(s, SelectSuppliers, true, false, fault);
    (e.0, if Truthy(e.1) then e.1.rows else [])
  }

  method GetAllSuppliers(db: DatabaseConnector, fault: bool) returns (suppliers: seq<Row>)
    requires db.Valid()
    modifies db
    ensures db.Valid()
    ensures (db.State(), suppliers) == SupplierList(old(db.State()), fault)
  {
    var result := db.ExecuteQuery(SelectSuppliers, true, false, fault);
    if Truthy(result) {
      return result.rows;
    }
    return [];
  }

  /**
   * `add_new_supplier(supplier_data)`: on success exactly one supplier row is added, under the
   * next id, and committed with the rest of the session's transaction.
   */
  function SupplierAdded(s: Session, x: SupplierData, fault: bool): (r: (Session, bool))
    requires s.Valid()
    ensures r.0.Valid()
    ensures r.1 <==> s.IsOpen() && !fault
    ensures r.1 ==> r.0.committed == InsertSupplier(s.pending, SupplierOf(x))
    ensures !r.1 ==> r.0.committed == s.committed
  {
    var e := Execute(s, InsertSupplierRow(SupplierOf(x)), false, true, fault);
    (e.0, e.1 != Flag(false))
  }

  method AddNewSupplier(db: DatabaseConnector, x: SupplierData, fault: bool) returns (ok: bool)
    requires db.Valid()
    modifies db
    ensures db.Valid()
    ensures (db.State(), ok) == SupplierAdded(old(db.State()), x, fault)
  {
    var result := db.ExecuteQuery(InsertSupplierRow(SupplierOf(x)), false, true, fault);
    return result != Flag(false);
  }

  /** `edit_supplier_info(supplier_id, new_data)`: only that row changes, if it exists. */
  function SupplierEdited(s: Session, id: int, x: SupplierData, fault: bool): (r: (Session, bool))
    requires s.Valid()
    ensures r.0.Valid()
    ensures r.1 <==> s.IsOpen() && !fault
    ensures r.1 ==> r.0.committed == UpdateSupplier(s.pending, id, SupplierOf(x))
    ensures !r.1 ==> r.0.committed == s.committed
  {
    var e := Execute(s, UpdateSupplierRow(id, SupplierOf(x)), false, true, fault);
    (e.0, e.1 != Flag(false))
  }

  method EditSupplierInfo(db: DatabaseConnector, id: int, x: SupplierData, fault: bool)
    returns (ok: bool)
    requires db.Valid()
    modifies db
    ensures db.Valid()
    ensures (db.State(), ok) == SupplierEdited(old(db.State()), id, x, fault)
  {
    var result := db.ExecuteQuery(UpdateSupplierRow(id, SupplierOf(x)), false, true, fault);
    return result != Flag(false);
  }

  /** `delete_supplier(supplier_id)`: succeeds whether or not a row matched. */
  function SupplierDeleted(s: Session, id: int, fault: bool): (r: (Session, bool))
    requires s.Valid()
    ensures r.0.Valid()
    ensures r.1 <==> s.IsOpen() && !fault
    ensures r.1 ==> r.0.committed == DeleteSupplier(s.pending, id)
    ensures !r.1 ==> r.0.committed == s.committed
  {
    var e := Execute(s, DeleteSupplierRow(id), false, true, fault);
    (e.0, e.1 != Flag(false))
  }

  method DeleteSupplierById(db: DatabaseConnector, id: int, fault: bool) returns (ok: bool)
    requires db.Valid()
    modifies db
    ensures db.Valid()
    ensures (db.State(), ok) == SupplierDeleted(old(db.State()), id, fault)
  {
    var result := db.ExecuteQuery(DeleteSupplierRow(id), false, true, fault);
    return result != Flag(false);
  }

  /** `get_supplier_by_id(supplier_id)`: that supplier's row, or `None`. */
  function SupplierById(s: Session, id: int, fault: bool): (r: (Session, Option<Row>))
    requires s.Valid()
    ensures r.0.Valid() && r.0.committed == s.committed
    ensures r.1.Some? <==> s.IsOpen() && !fault && id in s.pending.suppliers
    ensures r.1.Some? ==> r.1.value == SupplierView(s.pending, id)
  {
    var e := Execute(s, SelectSupplierById(id), true, false, fault);
    (e.0, FirstRow(e.1))
  }

  method GetSupplierById(db: DatabaseConnector, id: int, fault: bool) returns (supplier: Option<Row>)
    requires db.Valid()
    modifies db
    ensures db.Valid()
    ensures (db.State(), supplier) == SupplierById(old(db.State()), id, fault)
  {
    var result := db.ExecuteQuery(SelectSupplierById(id), true, false, fault);
    return FirstRow(result);
  }

  // ---- round trips over the supplier functions ----

  /** A supplier just added is found under its new id, its phone defaulted to ''. */
  lemma {:induction false} AddThenGet(s: Session, x: SupplierData)
    requires s.Valid() && s.IsOpen()
    ensures var a := SupplierAdded(s, x, false);
      var id := s.pending.nextId;
      var phone := if x.contactPhone.Some? then x.contactPhone.value else "";
      SupplierById(a.0, id, false).1 == Some(SupplierRow(id, x.companyName, x.inn, phone))
  {
    var a := SupplierAdded(s, x, false);
    assert a.0.IsOpen() && a.0.pending == a.0.committed;
  }

  /** A supplier just added appears in the supplier list. */
  lemma {:induction false} AddThenList(s: Session, x: SupplierData)
    requires s.Valid() && s.IsOpen()
    ensures var a := SupplierAdded(s, x, false);
      var id := s.pending.nextId;
      var phone := if x.contactPhone.Some? then x.contactPhone.value else "";
      SupplierRow(id, x.companyName, x.inn, phone) in SupplierList(a.0, false).1
  {
    var a := SupplierAdded(s, x, false);
    var t := a.0.pending;
    var id := s.pending.nextId;
    assert a.0.IsOpen() && t == a.0.committed && id in t.suppliers && id < t.nextId;
    var all := SupplierRows(t);
    assert SupplierView(t, id) in all;
    assert SupplierView(t, id) in multiset(all);
  }

  /** An edited supplier reads back with the new values, under the same id. */
  lemma {:induction false} EditThenGet(s: Session, id: int, x: SupplierData)
    requires s.Valid() && s.IsOpen() && id in s.pending.suppliers
    ensures var e := SupplierEdited(s, id, x, false);
      var phone := if x.contactPhone.Some? then x.contactPhone.value else "";
      SupplierById(e.0, id, false).1 == Some(SupplierRow(id, x.companyName, x.inn, phone))
  {
    var e := SupplierEdited(s, id, x, false);
    assert e.0.IsOpen() && e.0.pending == e.0.committed;
  }

  /** A deleted supplier is no longer found, and every other supplier is as it was. */
  lemma {:induction false} DeleteThenGet(s: Session, id: int, other: int)
    requires s.Valid() && s.IsOpen() && other != id
    ensures var d := SupplierDeleted(s, id, false);
      && SupplierById(d.0, id, false).1 == None
      && SupplierById(d.0, other, false).1 == SupplierById(s, other, false).1
  {
    var d := SupplierDeleted(s, id, false);
    assert d.0.IsOpen() && d.0.pending == d.0.committed;
  }
}
