/**
 * `kalash.py`: the partner manager. `DatabaseManager` keeps its own connection and enforces
 * the provisioning rules (one login per partner, unique usernames, a role found with a
 * fallback, partner deletion that takes the partner's users along); the two dialogs check
 * their forms; the partner table shows a user column.
 *
 * Every `DatabaseManager` method runs inside `try`, and a driver error rolls the open
 * transaction back (except in `initialize_base_data`, which only reports it). A driver error
 * is an `Option<string>` parameter holding the error text, or a `bool` where the text is not
 * shown to anyone.
 */
module PartnerManager {
  import opened Wrappers
  import opened Text
  import opened Store
  import Tables = Store
  import Connector

  // ---- hash_password, generate_random_password, generate_partner_username ----

  /**
   * `hash_password`: SHA-256 as hexadecimal. Only injectivity matters to the rules here, so
   * the model tags the password instead of digesting it.
   */
  function HashPassword(password: string): (h: string)
    ensures |h| == |password| + 7
  {
    "sha256:" + password
  }

  lemma HashInjective(a: string, b: string)
    requires HashPassword(a) == HashPassword(b)
    ensures a == b
  {
    assert a == HashPassword(a)[7..];
  }

  /** `string.ascii_letters + string.digits`: a-z, A-Z, 0-9. */
  const ALPHABET: string := CharRange('a', 26) + CharRange('A', 26) + CharRange('0', 10)

  /** `n` consecutive characters from `first`. */
  function CharRange(first: char, n: nat): (r: string)
    requires first as int + n <= 128
    ensures |r| == n
    ensures forall i :: 0 <= i < n ==> r[i] as int == first as int + i
  {
    if n == 0 then [] else CharRange(first, n - 1) + [(first as int + n - 1) as char]
  }

  /** The random choices: `n` indices into ALPHABET. */
  predicate ValidPicks(picks: seq<int>, n: int) {
    |picks| == n && forall i :: 0 <= i < |picks| ==> 0 <= picks[i] < |ALPHABET|
  }

  /** `generate_random_password(length)`, the characters chosen by `picks`. */
  function GenerateRandomPassword(picks: seq<int>): (r: string)
    requires ValidPicks(picks, |picks|)
    ensures |r| == |picks|
    ensures forall i :: 0 <= i < |r| ==> r[i] in ALPHABET
    ensures forall i :: 0 <= i < |r| ==> IsAlnum(r[i]) && r[i] as int < 128
  {
    seq(|picks|, i requires 0 <= i < |picks| => ALPHABET[picks[i]])
  }

  function Min(a: int, b: int): int {
    if a <= b then a else b
  }

  /** The four random digits of a username suffix. */
  predicate ValidDigits(digits: seq<int>) {
    |digits| == 4 && forall i :: 0 <= i < 4 ==> 0 <= digits[i] <= 9
  }

  /**
   * `generate_partner_username(company_name)`: the company name's letters and digits,
   * lower-cased and cut to ten, then '_' and four random digits.
   */
  function GeneratePartnerUsername(companyName: string, digits: seq<int>): (r: string)
    requires ValidDigits(digits)
    ensures var base := Lower(KeepAlnum(companyName));
      && 5 <= |r| <= 15
      && r[..|r| - 5] == base[..Min(|base|, 10)]
      && r[|r| - 5] == '_'
      && IsDigits(r[|r| - 4..])
    ensures forall i :: 0 <= i < |r| - 5 ==> IsAlnum(r[i]) && !IsUpperLetter(r[i])
  {
    var base := Lower(KeepAlnum(companyName));
    var head := base[..Min(|base|, 10)];
    var suffix := seq(4, i requires 0 <= i < 4 => ('0' as int + digits[i]) as char);
    var r := head + "_" + suffix;
    assert r[|r| - 4..] == suffix;
    assert r[..|r| - 5] == head;
    r
  }

  // ---- the role of a new partner user ----

  /** 'Partner_User' if that role exists, else the first role, else 1. */
  function ResolveRoleId(s: Store): (r: int)
    requires s.Valid()
    ensures (exists k :: k in s.roles && s.roles[k].roleName == "Partner_User") ==>
      r in s.roles && s.roles[r].roleName == "Partner_User"
      && forall k :: k in s.roles && s.roles[k].roleName == "Partner_User" ==> r <= k
    ensures (forall k :: k in s.roles ==> s.roles[k].roleName != "Partner_User") && s.roles != map[] ==>
      r in s.roles && forall k :: k in s.roles ==> r <= k
    ensures s.roles == map[] ==> r == 1
  {
    SelectFirst(s.roles, s.nextId, (x: Role) => x.roleName == "Partner_User");
    SelectFirst(s.roles, s.nextId, (x: Role) => true);
    var named := RolesNamed(s, "Partner_User");
    if named != [] then named[0]
    else
      var all := AllRoles(s);
      if all != [] then all[0] else 1
  }

  // ---- messages ----

  const USERNAME_TAKEN := "Пользователь с таким логином уже существует"
  const PARTNER_HAS_USER := "Для этого партнера уже существует пользователь: "
  const USER_UPDATED := "Данные пользователя обновлены"
  const NOT_CREATED := "Не создан"

  function DbError(e: string): string {
    "Ошибка базы данных: " + e
  }

  // ---- the rules, as effects on the connection's view of the database ----

  datatype Provisioned = Provisioned(store: Store, password: string)

  /** Python truthiness of an optional string. */
  predicate Given(password: Option<string>) {
    password.Some? && password.value != ""
  }

  /**
   * The body of `create_partner_user` when no driver error occurs: refuse a partner that
   * already has a login (naming it), then a taken username; otherwise add one user under the
   * next id with the hashed password, given or generated, and the resolved role.
   */
  function CreateUser(s: Store, partnerId: int, username: string, password: Option<string>,
                      picks: seq<int>): (r: Result<Provisioned, string>)
    requires s.Valid() && ValidPicks(picks, 8)
    ensures r.Failure? <==>
      (exists k :: k in s.users && s.users[k].partnerId == Some(partnerId))
      || (exists k :: k in s.users && s.users[k].username == username)
    ensures r.Success? ==>
      && (Given(password) ==> r.value.password == password.value)
      && (!Given(password) ==> r.value.password == GenerateRandomPassword(picks))
      && |r.value.password| > 0
      && r.value.store
         == InsertUser(s, User(username, HashPassword(r.value.password), ResolveRoleId(s), Some(partnerId)))
  {
    SelectFirst(s.users, s.nextId, (u: User) => u.partnerId == Some(partnerId));
    SelectFirst(s.users, s.nextId, (u: User) => u.username == username);
    var existing := UsersOfPartner(s, partnerId);
    if existing != [] then Failure(PARTNER_HAS_USER + s.users[existing[0]].username)
    else if UsersNamed(s, username) != [] then Failure(USERNAME_TAKEN)
    else
      var pw := if Given(password) then password.value else GenerateRandomPassword(picks);
      var u := User(username, HashPassword(pw), ResolveRoleId(s), Some(partnerId));
      Success(Provisioned(InsertUser(s, u), pw))
  }

  /** `create_partner_user` keeps both provisioning rules: one login per partner, unique usernames. */
  lemma {:induction false} CreateUserKeepsInvariants(s: Store, partnerId: int, username: string,
                                                     password: Option<string>, picks: seq<int>)
    requires s.Valid() && ValidPicks(picks, 8) && OneUserPerPartner(s) && UniqueUsernames(s)
    requires CreateUser(s, partnerId, username, password, picks).Success?
    ensures var t := CreateUser(s, partnerId, username, password, picks).value.store;
      OneUserPerPartner(t) && UniqueUsernames(t)
  {
    var r := CreateUser(s, partnerId, username, password, picks);
    var u := User(username, HashPassword(r.value.password), ResolveRoleId(s), Some(partnerId));
    InsertUserKeepsInvariants(s, u);
  }

  /** After a successful `create_partner_user` the new user is the partner's one login. */
  lemma {:induction false} CreatedUserIsTheOnlyOne(s: Store, partnerId: int, username: string,
                                                   password: Option<string>, picks: seq<int>)
    requires s.Valid() && ValidPicks(picks, 8)
    requires CreateUser(s, partnerId, username, password, picks).Success?
    ensures var t := CreateUser(s, partnerId, username, password, picks).value.store;
      && (forall k :: k in UsersOfPartner(t, partnerId) <==> k == s.nextId)
      && (forall k :: k in UsersNamed(t, username) <==> k == s.nextId)
  {
    var t := CreateUser(s, partnerId, username, password, picks).value.store;
    assert t.users == s.users[s.nextId := t.users[s.nextId]];
  }

  /**
   * The body of `update_partner_user`: refuse a username another user holds (the user's own
   * is fine); otherwise rename the user, and replace the password hash only when a non-empty
   * password is given. A missing user id changes nothing.
   */
  function UpdateUserEffect(s: Store, userId: int, username: string, password: Option<string>)
    : (r: Result<Store, string>)
    requires s.Valid()
    ensures r.Failure? <==> exists k :: k in s.users && k != userId && s.users[k].username == username
    ensures r.Success? ==> r.value == s.(users := r.value.users)
    ensures r.Success? && userId in s.users ==>
      r.value.users == s.users[userId := Edited(s.users[userId], username, password)]
    ensures r.Success? && userId !in s.users ==> r.value == s
  {
    var named := UsersNamed(s, username);
    if exists k :: k in named && k != userId then Failure(USERNAME_TAKEN)
    else if userId !in s.users then Success(s)
    else Success(UpdateUser(s, userId, Edited(s.users[userId], username, password)))
  }

  /** The user as `update_partner_user` rewrites it: role and partner stay. */
  function Edited(u: User, username: string, password: Option<string>): (v: User)
    ensures v.username == username && v.roleId == u.roleId && v.partnerId == u.partnerId
    ensures Given(password) ==> v.passwordHash == HashPassword(password.value)
    ensures !Given(password) ==> v.passwordHash == u.passwordHash
  {
    if Given(password) then u.(username := username, passwordHash := HashPassword(password.value))
    else u.(username := username)
  }

  /** `update_partner_user` keeps both provisioning rules. */
  lemma {:induction false} UpdateUserKeepsInvariants(s: Store, userId: int, username: string,
                                                     password: Option<string>)
    requires s.Valid() && OneUserPerPartner(s) && UniqueUsernames(s)
    requires UpdateUserEffect(s, userId, username, password).Success?
    ensures OneUserPerPartner(UpdateUserEffect(s, userId, username, password).value)
    ensures UniqueUsernames(UpdateUserEffect(s, userId, username, password).value)
  {
  }

  /** The effect of `reset_partner_user_password`: only the hash of that user changes. */
  function ResetPasswordEffect(s: Store, userId: int, newPassword: string): (r: Store)
    ensures r.(users := s.users) == s
    ensures forall k :: k in r.users <==> k in s.users
    ensures forall k :: k in s.users && k != userId ==> r.users[k] == s.users[k]
    ensures userId in s.users ==>
      r.users[userId] == s.users[userId].(passwordHash := HashPassword(newPassword))
  {
    if userId in s.users then
      UpdateUser(s, userId, s.users[userId].(passwordHash := HashPassword(newPassword)))
    else s
  }

  // ---- initialize_base_data ----

  const PARTNER_TYPES: seq<PartnerType> :=
    [PartnerType("ООО"), PartnerType("ЗАО"), PartnerType("ПАО"), PartnerType("ИП"), PartnerType("АО")]
  const ROLES: seq<Role> := [Role("Admin"), Role("Partner_Admin"), Role("Partner_User"), Role("Manager")]

  /** `rows` under the consecutive ids from `lo`. */
  function Consecutive<T>(lo: int, rows: seq<T>): (m: map<int, T>)
    ensures forall k :: k in m <==> lo <= k < lo + |rows|
    ensures forall i :: 0 <= i < |rows| ==> m[lo + i] == rows[i]
  {
    if rows == [] then map[]
    else Consecutive(lo, rows[..|rows| - 1])[lo + |rows| - 1 := rows[|rows| - 1]]
  }

  /** One multi-row INSERT INTO partner_types: the rows under consecutive new ids. */
  function InsertPartnerTypes(s: Store, rows: seq<PartnerType>): (r: Store)
    ensures s.Valid() ==> r.Valid()
    ensures r == s.(partnerTypes := r.partnerTypes, nextId := s.nextId + |rows|)
    ensures forall k :: k in r.partnerTypes <==> k in s.partnerTypes || s.nextId <= k < r.nextId
    ensures forall i :: 0 <= i < |rows| ==> r.partnerTypes[s.nextId + i] == rows[i]
    ensures forall k :: k in s.partnerTypes && k < s.nextId ==> r.partnerTypes[k] == s.partnerTypes[k]
  {
    s.(partnerTypes := s.partnerTypes + Consecutive(s.nextId, rows), nextId := s.nextId + |rows|)
  }

  /** One multi-row INSERT INTO roles. */
  function InsertRoles(s: Store, rows: seq<Role>): (r: Store)
    ensures s.Valid() ==> r.Valid()
    ensures r == s.(roles := r.roles, nextId := s.nextId + |rows|)
    ensures forall k :: k in r.roles <==> k in s.roles || s.nextId <= k < r.nextId
    ensures forall i :: 0 <= i < |rows| ==> r.roles[s.nextId + i] == rows[i]
    ensures forall k :: k in s.roles && k < s.nextId ==> r.roles[k] == s.roles[k]
  {
    s.(roles := s.roles + Consecutive(s.nextId, rows), nextId := s.nextId + |rows|)
  }

  /**
   * The database after `initialize_base_data`, by where its driver error strikes, if at all,
   * and whether anything was written (and so committed).
   */
  function Seeding(s: Store, typesFault: bool, rolesFault: bool): (r: (Store, bool))
    ensures s.Valid() ==> r.0.Valid()
    ensures !r.1 ==> r.0 == s
    ensures r.0.users == s.users && r.0.partners == s.partners && r.0.suppliers == s.suppliers
    ensures s.partnerTypes != map[] || typesFault ==> r.0.partnerTypes == s.partnerTypes
    ensures s.roles != map[] || typesFault || rolesFault ==> r.0.roles == s.roles
    ensures !typesFault && s.partnerTypes == map[] ==>
      r.1 && r.0.partnerTypes == InsertPartnerTypes(s, PARTNER_TYPES).partnerTypes
    ensures !typesFault && !rolesFault && s.roles == map[] ==>
      && r.1
      && r.0.roles == InsertRoles(if s.partnerTypes == map[] then InsertPartnerTypes(s, PARTNER_TYPES)
                                  else s, ROLES).roles
  {
    if typesFault then (s, false)
    else
      var t := if s.partnerTypes == map[] then InsertPartnerTypes(s, PARTNER_TYPES) else s;
      if rolesFault || t.roles != map[] then (t, s.partnerTypes == map[])
      else (InsertRoles(t, ROLES), true)
  }

  /** Seeding an empty database leaves the five organisation types and the four roles. */
  lemma {:induction false} SeedingEmptyDatabase(s: Store)
    requires s.partnerTypes == map[] && s.roles == map[]
    ensures var r := Seeding(s, false, false).0;
      && r.partnerTypes == Consecutive(s.nextId, PARTNER_TYPES)
      && r.roles == Consecutive(s.nextId + |PARTNER_TYPES|, ROLES)
      && r.nextId == s.nextId + |PARTNER_TYPES| + |ROLES|
  {
    var t := InsertPartnerTypes(s, PARTNER_TYPES);
    MergeIntoEmpty(Consecutive(s.nextId, PARTNER_TYPES));
    var r := InsertRoles(t, ROLES);
    assert Seeding(s, false, false).0 == r;
    MergeIntoEmpty(Consecutive(t.nextId, ROLES));
  }

  /** Helper: merging rows into an empty table gives exactly those rows. */
  lemma MergeIntoEmpty<T>(m: map<int, T>)
    ensures map[] + m == m
  {
  }

  /** A partner login created after seeding an empty database gets the 'Partner_User' role. */
  lemma {:induction false} SeededRoleIsPartnerUser(s: Store)
    requires s.Valid() && s.partnerTypes == map[] && s.roles == map[]
    ensures ResolveRoleId(Seeding(s, false, false).0) == s.nextId + 7
  {
    SeedingEmptyDatabase(s);
    SeededRolesResolve(Seeding(s, false, false).0, s.nextId + 5);
  }

  /** With exactly the four seeded roles under the ids from `lo`, the lookup picks the third. */
  lemma SeededRolesResolve(r: Store, lo: int)
    requires r.Valid() && r.roles == Consecutive(lo, ROLES)
    ensures ResolveRoleId(r) == lo + 2
  {
    assert |ROLES| == 4;
    assert r.roles[lo + 2] == ROLES[2];
    forall k | k in r.roles && r.roles[k].roleName == "Partner_User" ensures lo + 2 <= k {
      assert r.roles[lo + (k - lo)] == ROLES[k - lo];
    }
  }

  // ---- the dialogs and the user column ----

  /** `result_data` of `PartnerDialog.save_partner`. */
  datatype PartnerForm = PartnerForm(
    companyName: string,
    email: string,
    phone: string,
    inn: string,
    contactPerson: string,
    partnerTypeId: int,
    createUser: bool)

  const NAME_REQUIRED := "Название компании обязательно для заполнения!"
  const INN_REQUIRED := "ИНН обязателен для заполнения!"
  const DIRECTOR_REQUIRED := "ФИО директора обязательно для заполнения!"
  const TYPE_REQUIRED := "Выберите тип организации!"

  /**
   * `PartnerDialog.save_partner`: name, INN, director and organisation type are required and
   * checked in that order; the first one missing is the warning. `partnerTypeId` is the
   * combo box's data, `None` when nothing is selected.
   */
  function SavePartner(name: string, email: string, phone: string, inn: string,
                       contactPerson: string, partnerTypeId: Option<int>, isEdit: bool,
                       createUserChecked: bool): (r: Result<PartnerForm, string>)
    ensures Strip(name) == [] ==> r == Failure(NAME_REQUIRED)
    ensures Strip(name) != [] && Strip(inn) == [] ==> r == Failure(INN_REQUIRED)
    ensures Strip(name) != [] && Strip(inn) != [] && Strip(contactPerson) == [] ==>
      r == Failure(DIRECTOR_REQUIRED)
    ensures (Strip(name) != [] && Strip(inn) != [] && Strip(contactPerson) != []
             && (partnerTypeId.None? || partnerTypeId.value == 0)) ==> r == Failure(TYPE_REQUIRED)
    ensures r.Success? <==>
      !AllSpace(name) && !AllSpace(inn) && !AllSpace(contactPerson)
      && partnerTypeId.Some? && partnerTypeId.value != 0
    ensures r.Success? ==>
      && r.value.companyName == Strip(name) && r.value.inn == Strip(inn)
      && r.value.contactPerson == Strip(contactPerson)
      && r.value.email == Strip(email) && r.value.phone == Strip(phone)
      && Some(r.value.partnerTypeId) == partnerTypeId
      && (r.value.createUser <==> !isEdit && createUserChecked)
  {
    var n := Strip(name);
    var i := Strip(inn);
    var c := Strip(contactPerson);
    if n == [] then Failure(NAME_REQUIRED)
    else if i == [] then Failure(INN_REQUIRED)
    else if c == [] then Failure(DIRECTOR_REQUIRED)
    else if partnerTypeId.None? || partnerTypeId.value == 0 then Failure(TYPE_REQUIRED)
    else Success(PartnerForm(n, Strip(email), Strip(phone), i, c, partnerTypeId.value,
                             if !isEdit then createUserChecked else false))
  }

  /**
   * `PartnerUserDialog.save_user`: the stripped username is required; the password is kept as
   * typed unless it is empty or generation is ticked, and then it is `None`.
   */
  function SaveUser(usernameText: string, generateChecked: bool, passwordText: string)
    : (r: Result<(string, Option<string>), string>)
    ensures r.Failure? <==> AllSpace(usernameText)
    ensures r.Success? ==>
      && r.value.0 == Strip(usernameText) && r.value.0 != []
      && (r.value.1.None? <==> generateChecked || passwordText == [])
      && (r.value.1.Some? ==> r.value.1.value == passwordText)
  {
    var username := Strip(usernameText);
    if username == [] then Failure("Логин обязателен для заполнения!")
    else Success((username, if !generateChecked && passwordText != [] then Some(passwordText) else None))
  }

  /** A password left to the dialog's generator is generated by `create_partner_user`. */
  lemma {:induction false} SaveUserThenCreate(s: Store, partnerId: int, usernameText: string,
                                              passwordText: string, picks: seq<int>)
    requires s.Valid() && ValidPicks(picks, 8)
    requires SaveUser(usernameText, true, passwordText).Success?
    ensures var form := SaveUser(usernameText, true, passwordText).value;
      var r := CreateUser(s, partnerId, form.0, form.1, picks);
      r.Success? ==> r.value.password == GenerateRandomPassword(picks)
  {
  }

  const HAS_USER := "Есть пользователь"
  const NO_USER := "Нет пользователя"

  /** The user column of `PartnerManager.refresh_table`. */
  function UserText(username: Option<string>, userCount: int): (r: string)
    ensures userCount > 0 && username.Some? && username.value != [] ==> r == username.value
    ensures userCount > 0 && (username.None? || username.value == []) ==> r == HAS_USER
    ensures userCount <= 0 ==> r == NO_USER
  {
    if userCount > 0 && username.Some? && username.value != [] then username.value
    else if userCount > 0 then HAS_USER
    else NO_USER
  }

  /**
   * The two subqueries of `get_all_partners` for one partner: how many users it has, and the
   * username of the first.
   */
  function UserColumn(s: Store, partnerId: int): string {
    var ids := UsersOfPartner(s, partnerId);
    UserText(if ids != [] then Some(s.users[ids[0]].username) else None, |ids|)
  }

  /**
   * Where every partner has at most one login, the column shows that login's username (or
   * "Есть пользователь" for an empty one), and "Нет пользователя" for a partner without one.
   */
  lemma {:induction false} UserColumnShowsTheLogin(s: Store, partnerId: int, k: int)
    requires s.Valid() && OneUserPerPartner(s)
    requires k in s.users && s.users[k].partnerId == Some(partnerId)
    ensures UserColumn(s, partnerId) == if s.users[k].username != [] then s.users[k].username else HAS_USER
  {
    SelectFirst(s.users, s.nextId, (u: User) => u.partnerId == Some(partnerId));
  }

  lemma {:induction false} UserColumnWithoutLogin(s: Store, partnerId: int)
    requires s.Valid()
    requires forall k :: k in s.users ==> s.users[k].partnerId != Some(partnerId)
    ensures UserColumn(s, partnerId) == NO_USER
  {
  }

  // ---- add_partner ----

  /** The `partner_data` dict `add_partner` reads, and writes the generated login into. */
  class PartnerData {
    var companyName: string
    var email: string
    var phone: string
    var contactPerson: string
    /** Read with `.get('inn', '')`. */
    var inn: Option<string>
    var partnerTypeId: int
    /** Read with `.get('create_user', True)`. */
    var createUser: Option<bool>
    var autoUsername: Option<string>
    var autoPassword: Option<string>

    constructor(form: PartnerForm)
      ensures Row() == Partner(form.companyName, form.email, Some(form.phone), form.contactPerson,
                               form.inn, form.partnerTypeId)
      ensures WantsUser() == form.createUser
      ensures autoUsername == None && autoPassword == None
    {
      companyName := form.companyName;
      email := form.email;
      phone := form.phone;
      contactPerson := form.contactPerson;
      inn := Some(form.inn);
      partnerTypeId := form.partnerTypeId;
      createUser := Some(form.createUser);
      autoUsername := None;
      autoPassword := None;
    }

    /** The partners row the INSERT or UPDATE writes. */
    function Row(): Partner
      reads this
    {
      Partner(companyName, email, Some(phone), contactPerson,
              if inn.Some? then inn.value else "", partnerTypeId)
    }

    function WantsUser(): bool
      reads this
    {
      createUser.None? || createUser.value
    }
  }

  /** What `add_partner` leaves behind: both views of the database, its result, the login. */
  datatype Added = Added(
    committed: Store,
    pending: Store,
    ok: bool,
    partnerId: Option<int>,
    login: Option<(string, string)>)

  /**
   * `add_partner` as written: insert the partner, provision its login through
   * `create_partner_user`, commit, report success. A driver error inside
   * `create_partner_user` is caught there and rolls back the whole open transaction, the
   * uncommitted partner row included, and `add_partner` still reports success.
   */
  function AddPartnerAsWritten(committed: Store, pending: Store, p: Partner, wantsUser: bool,
                               digits: seq<int>, picks: seq<int>, insertFault: bool,
                               provisioningFault: Option<string>): (r: Added)
    requires committed.Valid() && pending.Valid() && committed.nextId <= pending.nextId
    requires ValidDigits(digits) && ValidPicks(picks, 8)
    ensures r.committed.Valid() && r.pending.Valid() && r.committed.nextId <= r.pending.nextId
    ensures r.ok <==> !insertFault
    ensures r.ok ==> r.partnerId == Some(pending.nextId)
    ensures !r.ok ==> r.committed == committed && r.partnerId == None
  {
    if insertFault then Added(committed, RolledBack(committed, pending), false, None, None)
    else
      var pid := pending.nextId;
      var s1 := InsertPartner(pending, p);
      if !wantsUser then Added(s1, s1, true, Some(pid), None)
      else
        var username := GeneratePartnerUsername(p.companyName, digits);
        if provisioningFault.Some? then
          var s2 := RolledBack(committed, s1);
          Added(s2, s2, true, Some(pid), Some((NOT_CREATED, DbError(provisioningFault.value))))
        else
          match CreateUser(s1, pid, username, None, picks)
          case Success(v) => Added(v.store, v.store, true, Some(pid), Some((username, v.password)))
          case Failure(m) => Added(s1, s1, true, Some(pid), Some((NOT_CREATED, m)))
  }

  /**
   * `add_partner` as evidently intended: the partner row is committed before its login is
   * provisioned, so no failure of the provisioning can take it back.
   */
  function AddPartnerCommittingFirst(committed: Store, pending: Store, p: Partner, wantsUser: bool,
                                     digits: seq<int>, picks: seq<int>, insertFault: bool,
                                     provisioningFault: Option<string>): (r: Added)
    requires committed.Valid() && pending.Valid() && committed.nextId <= pending.nextId
    requires ValidDigits(digits) && ValidPicks(picks, 8)
    ensures r.committed.Valid() && r.pending.Valid() && r.committed.nextId <= r.pending.nextId
    ensures r.ok <==> !insertFault
    ensures r.ok ==> r.partnerId == Some(pending.nextId)
    ensures !r.ok ==> r.committed == committed && r.partnerId == None
  {
    if insertFault then Added(committed, RolledBack(committed, pending), false, None, None)
    else
      var pid := pending.nextId;
      var s1 := InsertPartner(pending, p);
      if !wantsUser then Added(s1, s1, true, Some(pid), None)
      else
        var username := GeneratePartnerUsername(p.companyName, digits);
        if provisioningFault.Some? then
          var s2 := RolledBack(s1, s1);
          Added(s2, s2, true, Some(pid), Some((NOT_CREATED, DbError(provisioningFault.value))))
        else
          match CreateUser(s1, pid, username, None, picks)
          case Success(v) => Added(v.store, v.store, true, Some(pid), Some((username, v.password)))
          case Failure(m) => Added(s1, s1, true, Some(pid), Some((NOT_CREATED, m)))
  }

  /**
   * As written, a driver error while provisioning the login loses the partner row, yet the
   * call reports success with the lost row's id.
   */
  lemma {:induction false} AddPartnerAsWrittenLosesPartner(committed: Store, pending: Store,
                                                           p: Partner, digits: seq<int>,
                                                           picks: seq<int>, e: string)
    requires committed.Valid() && pending.Valid() && committed.nextId <= pending.nextId
    requires ValidDigits(digits) && ValidPicks(picks, 8)
    ensures var r := AddPartnerAsWritten(committed, pending, p, true, digits, picks, false, Some(e));
      r.ok && r.partnerId == Some(pending.nextId) && pending.nextId !in r.committed.partners
  {
    assert pending.nextId !in committed.partners;
  }

  /**
   * Committing first, success always means the partner row is durable under the reported id,
   * whether or not its login could be provisioned, and a provisioned login belongs to it.
   */
  lemma {:induction false} AddPartnerCommittingFirstKeepsPartner(
      committed: Store, pending: Store, p: Partner, wantsUser: bool, digits: seq<int>,
      picks: seq<int>, provisioningFault: Option<string>)
    requires committed.Valid() && pending.Valid() && committed.nextId <= pending.nextId
    requires ValidDigits(digits) && ValidPicks(picks, 8)
    ensures var r := AddPartnerCommittingFirst(committed, pending, p, wantsUser, digits, picks,
                                                false, provisioningFault);
      var pid := pending.nextId;
      && r.ok && r.partnerId == Some(pid)
      && pid in r.committed.partners && r.committed.partners[pid] == p
      && (r.login.Some? && r.login.value.0 != NOT_CREATED ==>
            forall k :: k in UsersOfPartner(r.committed, pid) <==> k == pid + 1)
  {
    var pid := pending.nextId;
    var s1 := InsertPartner(pending, p);
    if wantsUser && provisioningFault.None? {
      var username := GeneratePartnerUsername(p.companyName, digits);
      var c := CreateUser(s1, pid, username, None, picks);
      if c.Success? {
        CreatedUserIsTheOnlyOne(s1, pid, username, None, picks);
        assert username != NOT_CREATED by {
          assert username[|username| - 5] == '_';
          assert forall i :: 0 <= i < |NOT_CREATED| ==> NOT_CREATED[i] != '_';
        }
      }
    }
  }

  // ---- DatabaseManager ----

  class DatabaseManager {
    var link: Connector.Link
    /** The database as other connections see it. */
    var committed: Store
    /** The database as this connection sees it, its open transaction included. */
    var pending: Store

    ghost predicate Valid()
      reads this
    {
      && committed.Valid() && pending.Valid() && committed.nextId <= pending.nextId
      && (link != Connector.Open ==> pending == RolledBack(committed, pending))
    }

    /**
     * `__init__`: connect, and seed the base data when the connection succeeds.
     * `typesFault` and `rolesFault` are driver errors in the two seeding steps.
     */
    constructor(db: Store, refused: bool, typesFault: bool, rolesFault: bool)
      requires db.Valid()
      ensures Valid()
      ensures link == (if refused then Connector.NoConnection else Connector.Open)
      ensures refused ==> committed == db && pending == db
      ensures !refused ==>
        && pending == Seeding(db, typesFault, rolesFault).0
        && committed == (if Seeding(db, typesFault, rolesFault).1 then pending else db)
    {
      link := if refused then Connector.NoConnection else Connector.Open;
      committed := db;
      pending := db;
      new;
      if !refused {
        InitializeBaseData(typesFault, rolesFault);
      }
    }

    /**
     * `initialize_base_data`: the five partner types when that table is empty, then the four
     * roles when that one is, each committed. A driver error ends the seeding and is only
     * reported; nothing is rolled back.
     */
    method InitializeBaseData(typesFault: bool, rolesFault: bool)
      requires Valid() && link == Connector.Open
      modifies this
      ensures Valid() && link == old(link)
      ensures pending == Seeding(old(pending), typesFault, rolesFault).0
      ensures committed == if Seeding(old(pending), typesFault, rolesFault).1 then pending else old(committed)
    {
      if typesFault {
        return;
      }
      if pending.partnerTypes == map[] {
        pending := InsertPartnerTypes(pending, PARTNER_TYPES);
        committed := pending;
      }
      if rolesFault {
        return;
      }
      if pending.roles == map[] {
        pending := InsertRoles(pending, ROLES);
        committed := pending;
      }
    }

    /** `create_partner_user(partner_id, username, password)` */
    method CreatePartnerUser(partnerId: int, username: string, password: Option<string>,
                             picks: seq<int>, fault: Option<string>)
      returns (ok: bool, text: string)
      requires Valid() && link == Connector.Open && ValidPicks(picks, 8)
      modifies this
      ensures Valid() && link == old(link)
      ensures fault.Some? ==>
        !ok && text == DbError(fault.value) && committed == old(committed)
        && pending == RolledBack(old(committed), old(pending))
      ensures fault.None? ==>
        match CreateUser(old(pending), partnerId, username, password, picks)
        case Success(v) => ok && text == v.password && pending == v.store && committed == v.store
        case Failure(m) => !ok && text == m && unchanged(this)
    {
      if fault.Some? {
        pending := RolledBack(committed, pending);
        return false, DbError(fault.value);
      }
      SelectFirst(pending.users, pending.nextId, (u: User) => u.partnerId == Some(partnerId));
      var existing := UsersOfPartner(pending, partnerId);
      if existing != [] {
        return false, PARTNER_HAS_USER + pending.users[existing[0]].username;
      }
      if UsersNamed(pending, username) != [] {
        return false, USERNAME_TAKEN;
      }
      var pw: string;
      if Given(password) {
        pw := password.value;
      } else {
        pw := GenerateRandomPassword(picks);
      }
      var passwordHash := HashPassword(pw);
      var roleId := ResolveRoleId(pending);
      pending := InsertUser(pending, User(username, passwordHash, roleId, Some(partnerId)));
      committed := pending;
      return true, pw;
    }

    /** `update_partner_user(user_id, user_data)` */
    method UpdatePartnerUser(userId: int, username: string, password: Option<string>,
                             fault: Option<string>)
      returns (ok: bool, message: string)
      requires Valid() && link == Connector.Open
      modifies this
      ensures Valid() && link == old(link)
      ensures fault.Some? ==>
        !ok && message == DbError(fault.value) && committed == old(committed)
        && pending == RolledBack(old(committed), old(pending))
      ensures fault.None? ==>
        var r := UpdateUserEffect(old(pending), userId, username, password);
        && (ok <==> r.Success?)
        && (r.Success? ==> message == USER_UPDATED && pending == r.value && committed == r.value)
        && (r.Failure? ==> message == r.error && pending == old(pending) && committed == old(committed))
    {
      if fault.Some? {
        pending := RolledBack(committed, pending);
        return false, DbError(fault.value);
      }
      ghost var spec := UpdateUserEffect(pending, userId, username, password);
      var named := UsersNamed(pending, username);
      if exists k :: k in named && k != userId {
        return false, USERNAME_TAKEN;
      }
      if userId in pending.users {
        pending := UpdateUser(pending, userId, Edited(pending.users[userId], username, password));
      }
      committed := pending;
      return true, USER_UPDATED;
    }

    /** `delete_partner_user(user_id)` */
    method DeletePartnerUser(userId: int, fault: bool) returns (ok: bool)
      requires Valid() && link == Connector.Open
      modifies this
      ensures Valid() && link == old(link)
      ensures ok <==> !fault
      ensures ok ==> committed == DeleteUser(old(pending), userId) && pending == committed
      ensures !ok ==> committed == old(committed) && pending == RolledBack(old(committed), old(pending))
    {
      if fault {
        pending := RolledBack(committed, pending);
        return false;
      }
      pending := DeleteUser(pending, userId);
      committed := pending;
      return true;
    }

    /** `reset_partner_user_password(user_id)`: succeeds even when no such user exists. */
    method ResetPartnerUserPassword(userId: int, picks: seq<int>, fault: Option<string>)
      returns (ok: bool, text: string)
      requires Valid() && link == Connector.Open && ValidPicks(picks, 8)
      modifies this
      ensures Valid() && link == old(link)
      ensures ok <==> fault.None?
      ensures ok ==>
        text == GenerateRandomPassword(picks)
        && committed == ResetPasswordEffect(old(pending), userId, text) && pending == committed
      ensures !ok ==>
        text == DbError(fault.value) && committed == old(committed)
        && pending == RolledBack(old(committed), old(pending))
    {
      if fault.Some? {
        pending := RolledBack(committed, pending);
        return false, DbError(fault.value);
      }
      var newPassword := GenerateRandomPassword(picks);
      var passwordHash := HashPassword(newPassword);
      if userId in pending.users {
        pending := UpdateUser(pending, userId, pending.users[userId].(passwordHash := passwordHash));
      }
      committed := pending;
      return true, newPassword;
    }

    /** `add_partner(partner_data)`, as written. */
    method AddPartner(data: PartnerData, digits: seq<int>, picks: seq<int>, insertFault: bool,
                      provisioningFault: Option<string>)
      returns (ok: bool, partnerId: Option<int>)
      requires Valid() && link == Connector.Open && ValidDigits(digits) && ValidPicks(picks, 8)
      modifies this, data`autoUsername, data`autoPassword
      ensures Valid() && link == old(link)
      ensures var r := AddPartnerAsWritten(old(committed), old(pending), old(data.Row()),
                                           old(data.WantsUser()), digits, picks, insertFault,
                                           provisioningFault);
        && committed == r.committed && pending == r.pending && ok == r.ok && partnerId == r.partnerId
        && (r.login.Some? ==> data.autoUsername == Some(r.login.value.0)
                              && data.autoPassword == Some(r.login.value.1))
        && (r.login.None? ==> unchanged(data))
    {
      if insertFault {
        pending := RolledBack(committed, pending);
        return false, None;
      }
      var id := pending.nextId;
      pending := InsertPartner(pending, data.Row());
      if data.WantsUser() {
        var username := GeneratePartnerUsername(data.companyName, digits);
        var success, password := CreatePartnerUser(id, username, None, picks, provisioningFault);
        if success {
          data.autoUsername := Some(username);
          data.autoPassword := Some(password);
        } else {
          data.autoUsername := Some(NOT_CREATED);
          data.autoPassword := Some(password);
        }
      }
      committed := pending;
      return true, Some(id);
    }

    /** `add_partner` with the partner committed before its login is provisioned. */
    method AddPartnerCommitted(data: PartnerData, digits: seq<int>, picks: seq<int>,
                               insertFault: bool, provisioningFault: Option<string>)
      returns (ok: bool, partnerId: Option<int>)
      requires Valid() && link == Connector.Open && ValidDigits(digits) && ValidPicks(picks, 8)
      modifies this, data`autoUsername, data`autoPassword
      ensures Valid() && link == old(link)
      ensures var r := AddPartnerCommittingFirst(old(committed), old(pending), old(data.Row()),
                                                 old(data.WantsUser()), digits, picks, insertFault,
                                                 provisioningFault);
        && committed == r.committed && pending == r.pending && ok == r.ok && partnerId == r.partnerId
        && (r.login.Some? ==> data.autoUsername == Some(r.login.value.0)
                              && data.autoPassword == Some(r.login.value.1))
        && (r.login.None? ==> unchanged(data))
    {
      if insertFault {
        pending := RolledBack(committed, pending);
        return false, None;
      }
      var id := pending.nextId;
      pending := InsertPartner(pending, data.Row());
      committed := pending;
      if data.WantsUser() {
        var username := GeneratePartnerUsername(data.companyName, digits);
        var success, password := CreatePartnerUser(id, username, None, picks, provisioningFault);
        if success {
          data.autoUsername := Some(username);
          data.autoPassword := Some(password);
        } else {
          data.autoUsername := Some(NOT_CREATED);
          data.autoPassword := Some(password);
        }
      }
      return true, Some(id);
    }

    /** `update_partner(partner_id, partner_data)`: a missing id changes nothing. */
    method UpdatePartner(partnerId: int, data: PartnerData, fault: bool) returns (ok: bool)
      requires Valid() && link == Connector.Open
      modifies this
      ensures Valid() && link == old(link)
      ensures ok <==> !fault
      ensures ok ==> committed == Tables.UpdatePartner(old(pending), partnerId, data.Row())
                     && pending == committed
      ensures !ok ==> committed == old(committed) && pending == RolledBack(old(committed), old(pending))
    {
      if fault {
        pending := RolledBack(committed, pending);
        return false;
      }
      pending := Tables.UpdatePartner(pending, partnerId, data.Row());
      committed := pending;
      return true;
    }

    /**
     * `delete_partner(partner_id)`: the partner's users first, then the partner; a missing id
     * still succeeds.
     */
    method DeletePartner(partnerId: int, fault: bool) returns (ok: bool)
      requires Valid() && link == Connector.Open
      modifies this
      ensures Valid() && link == old(link)
      ensures ok <==> !fault
      ensures ok ==>
        committed == Tables.DeletePartner(DeleteUsersOfPartner(old(pending), partnerId), partnerId)
        && pending == committed
      ensures !ok ==> committed == old(committed) && pending == RolledBack(old(committed), old(pending))
    {
      if fault {
        pending := RolledBack(committed, pending);
        return false;
      }
      pending := DeleteUsersOfPartner(pending, partnerId);
      pending := Tables.DeletePartner(pending, partnerId);
      committed := pending;
      return true;
    }

    /** `close_connection`: closes an open connection, which discards its open transaction. */
    method CloseConnection()
      requires Valid()
      modifies this
      ensures Valid()
      ensures old(link) == Connector.Open ==>
        link == Connector.Closed && committed == old(committed)
        && pending == RolledBack(old(committed), old(pending))
      ensures old(link) != Connector.Open ==> unchanged(this)
    {
      if link == Connector.Open {
        link := Connector.Closed;
        pending := RolledBack(committed, pending);
      }
    }
  }
}
