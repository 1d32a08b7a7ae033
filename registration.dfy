/**
 * `windows/registration_window.py`: the login and registration pages. The login page strips
 * both fields and refuses empty ones before asking the database; the registration page checks
 * its seven fields, builds the `user_data` record for `register_new_user` and clears itself
 * after a success. The password is stored as typed, stripped (no hashing), and the login page
 * compares it the same way.
 */
module Registration {
  import opened Wrappers
  import opened Text
  import opened Store
  import opened Sql
  import opened Connector
  import opened Models

  /** `USER_ROLES` of `config.py`. */
  const USER_ROLES: map<int, string> :=
    map[1 := "Partner", 2 := "WarehouseManager", 3 := "PartnerManager",
        4 := "ProductionManager", 5 := "ProcurementManager", 6 := "HRManager"]

  /** `USER_ROLES.get(role_id, "Unknown")` */
  function RoleName(roleId: int): (r: string)
    ensures roleId in USER_ROLES ==> r == USER_ROLES[roleId]
    ensures roleId !in USER_ROLES ==> r == "Unknown"
  {
    if roleId in USER_ROLES then USER_ROLES[roleId] else "Unknown"
  }

  /** The seven texts of the registration page, as typed. */
  datatype RegisterForm = RegisterForm(
    companyName: string,
    inn: string,
    director: string,
    email: string,
    username: string,
    password: string,
    confirmPassword: string)

  const BLANK_FORM := RegisterForm("", "", "", "", "", "", "")

  /** The labels of the required fields, in the order they are checked. */
  const LABELS: seq<string> :=
    ["Название компании", "ИНН", "Директор", "Email", "Логин", "Пароль", "Подтверждение пароля"]

  const INN := 1
  const EMAIL := 3
  const LOGIN := 4
  const PASSWORD := 5

  /** Every text of the form, stripped. */
  function Stripped(f: RegisterForm): (g: RegisterForm)
    ensures g.inn == Strip(f.inn) && g.email == Strip(f.email)
    ensures g.username == Strip(f.username) && g.password == Strip(f.password)
  {
    RegisterForm(Strip(f.companyName), Strip(f.inn), Strip(f.director), Strip(f.email),
                 Strip(f.username), Strip(f.password), Strip(f.confirmPassword))
  }

  /** The texts of a form in the order of LABELS. */
  function Values(g: RegisterForm): (r: seq<string>)
    ensures |r| == 7
    ensures r[INN] == g.inn && r[EMAIL] == g.email && r[LOGIN] == g.username && r[PASSWORD] == g.password
  {
    [g.companyName, g.inn, g.director, g.email, g.username, g.password, g.confirmPassword]
  }

  /** The required fields, stripped, in the order of LABELS. */
  function Required(f: RegisterForm): (r: seq<string>)
    ensures |r| == |LABELS|
    ensures r[INN] == Strip(f.inn) && r[EMAIL] == Strip(f.email)
    ensures r[LOGIN] == Strip(f.username) && r[PASSWORD] == Strip(f.password)
  {
    Values(Stripped(f))
  }

  /** The index of the first empty text of `fields` from `from` on, or `|fields|`. */
  function FirstBlank(fields: seq<string>, from: nat): (i: nat)
    requires from <= |fields|
    ensures from <= i <= |fields|
    ensures forall j :: from <= j < i ==> fields[j] != []
    ensures i < |fields| ==> fields[i] == []
    decreases |fields| - from
  {
    if from == |fields| then from
    else if fields[from] == [] then from
    else FirstBlank(fields, from + 1)
  }

  function MissingField(fieldName: string): string {
    "Поле '" + fieldName + "' обязательно для заполнения"
  }

  const BAD_INN := "ИНН должен содержать 10 цифр"
  const BAD_EMAIL := "Введите корректный email адрес"
  const PASSWORDS_DIFFER := "Пароли не совпадают"
  const PASSWORD_TOO_SHORT := "Пароль должен содержать минимум 6 символов"

  /** No required field is empty once stripped. */
  predicate NoBlank(fields: seq<string>) {
    forall j :: 0 <= j < |fields| ==> fields[j] != []
  }

  /** The format rules after the required fields: a ten-digit INN, an e-mail with '@' and '.'. */
  predicate WellFormed(fields: seq<string>)
    requires |fields| == |LABELS|
  {
    IsDigits(fields[INN]) && |fields[INN]| == 10 && '@' in fields[EMAIL] && '.' in fields[EMAIL]
  }

  /**
   * `validate_register_input`, as written, over the stripped fields and the two raw passwords:
   * the warning it shows, or None when it accepts. The first empty required field is named;
   * then the INN must be ten digits, the e-mail must hold '@' and '.', the two passwords must
   * match as typed, and the typed password must be six characters long.
   */
  function RegisterInputError(fields: seq<string>, password: string, confirm: string)
    : (r: Option<string>)
    requires |fields| == |LABELS|
    ensures r.None? <==>
      NoBlank(fields) && WellFormed(fields) && password == confirm && |password| >= 6
    ensures var blank := FirstBlank(fields, 0);
      blank < |LABELS| ==> r == Some(MissingField(LABELS[blank]))
    ensures NoBlank(fields) && !(IsDigits(fields[INN]) && |fields[INN]| == 10) ==> r == Some(BAD_INN)
    ensures (NoBlank(fields) && IsDigits(fields[INN]) && |fields[INN]| == 10
             && ('@' !in fields[EMAIL] || '.' !in fields[EMAIL])) ==> r == Some(BAD_EMAIL)
    ensures NoBlank(fields) && WellFormed(fields) && password != confirm ==> r == Some(PASSWORDS_DIFFER)
    ensures NoBlank(fields) && WellFormed(fields) && password == confirm && |password| < 6 ==>
      r == Some(PASSWORD_TOO_SHORT)
  {
    var blank := FirstBlank(fields, 0);
    if blank < |fields| then Some(MissingField(LABELS[blank]))
    else if !IsDigits(fields[INN]) || |fields[INN]| != 10 then Some(BAD_INN)
    else if '@' !in fields[EMAIL] || '.' !in fields[EMAIL] then Some(BAD_EMAIL)
    else if password != confirm then Some(PASSWORDS_DIFFER)
    else if |password| < 6 then Some(PASSWORD_TOO_SHORT)
    else None
  }

  /** `validate_register_input` with the length rule applied to the stored, stripped password. */
  function RegisterInputErrorStripped(fields: seq<string>, password: string, confirm: string)
    : (r: Option<string>)
    requires |fields| == |LABELS|
    ensures r.None? <==>
      NoBlank(fields) && WellFormed(fields) && password == confirm && |fields[PASSWORD]| >= 6
    ensures var blank := FirstBlank(fields, 0);
      blank < |LABELS| ==> r == Some(MissingField(LABELS[blank]))
    ensures NoBlank(fields) && !(IsDigits(fields[INN]) && |fields[INN]| == 10) ==> r == Some(BAD_INN)
    ensures (NoBlank(fields) && IsDigits(fields[INN]) && |fields[INN]| == 10
             && ('@' !in fields[EMAIL] || '.' !in fields[EMAIL])) ==> r == Some(BAD_EMAIL)
    ensures NoBlank(fields) && WellFormed(fields) && password != confirm ==> r == Some(PASSWORDS_DIFFER)
    ensures NoBlank(fields) && WellFormed(fields) && password == confirm && |fields[PASSWORD]| < 6 ==>
      r == Some(PASSWORD_TOO_SHORT)
  {
    var blank := FirstBlank(fields, 0);
    if blank < |fields| then Some(MissingField(LABELS[blank]))
    else if !IsDigits(fields[INN]) || |fields[INN]| != 10 then Some(BAD_INN)
    else if '@' !in fields[EMAIL] || '.' !in fields[EMAIL] then Some(BAD_EMAIL)
    else if password != confirm then Some(PASSWORDS_DIFFER)
    else if |fields[PASSWORD]| < 6 then Some(PASSWORD_TOO_SHORT)
    else None
  }

  /** The `user_data` record `register` submits: the stripped texts, the password as stored. */
  function BuildUserData(fields: seq<string>): (d: Models.Registration)
    requires |fields| == |LABELS|
    ensures d.roleId == 1
    ensures d.username == fields[LOGIN] && d.passwordHash == fields[PASSWORD]
    ensures d.inn == fields[INN] && d.email == fields[EMAIL]
    ensures d.companyName == fields[0] && d.directorName == fields[2]
  {
    Models.Registration(fields[4], fields[5], 1, fields[0], fields[1], fields[2], fields[3])
  }

  function Spaces(n: nat): (r: string)
    ensures |r| == n && AllSpace(r)
  {
    seq(n, _ => ' ')
  }

  /** Stripping leading white space in front of one visible character leaves that character. */
  lemma {:induction false} StripLeadingSpaces(n: nat, c: char)
    requires !IsSpace(c)
    ensures Strip(Spaces(n) + [c]) == [c]
  {
    if n > 0 {
      assert (Spaces(n) + [c])[1..] == Spaces(n - 1) + [c];
      StripLeadingSpaces(n - 1, c);
    }
  }

  /**
   * As written, the six-character minimum is checked on the typed password, but the stored
   * password is the stripped one: "     a" passes and "a" is stored.
   */
  lemma {:induction false} ShortPasswordAccepted()
    ensures var f := RegisterForm("A", "1234567890", "B", "a@b.c", "u", "     a", "     a");
      && RegisterInputError(Required(f), f.password, f.confirmPassword) == None
      && BuildUserData(Required(f)).passwordHash == "a"
  {
    var f := RegisterForm("A", "1234567890", "B", "a@b.c", "u", "     a", "     a");
    assert f.password == Spaces(5) + ['a'];
    StripLeadingSpaces(5, 'a');
    StripOfTrimmed("A");
    StripOfTrimmed("1234567890");
    StripOfTrimmed("B");
    StripOfTrimmed("a@b.c");
    StripOfTrimmed("u");
    var fields := Required(f);
    assert fields == SAMPLE;
    SampleIsWellFormed();
  }

  /** The stripped fields of the form in `ShortPasswordAccepted`. */
  const SAMPLE: seq<string> := ["A", "1234567890", "B", "a@b.c", "u", "a", "a"]

  /** Helper for `ShortPasswordAccepted`: the sample passes the field and format checks. */
  lemma SampleIsWellFormed()
    ensures NoBlank(SAMPLE) && WellFormed(SAMPLE)
  {
    var inn := SAMPLE[INN];
    assert inn == "1234567890";
    assert forall i :: 0 <= i < |inn| ==> IsAsciiDigit(inn[i]);
    var email := SAMPLE[EMAIL];
    assert email[1] == '@' && email[3] == '.';
  }

  /**
   * With the stripped length checked, every registration the page accepts stores a password of
   * at least six characters that neither starts nor ends with white space, a ten-digit INN and
   * a non-empty login.
   */
  lemma {:induction false} AcceptedPasswordIsLongEnough(f: RegisterForm)
    requires RegisterInputErrorStripped(Required(f), f.password, f.confirmPassword) == None
    ensures var d := BuildUserData(Required(f));
      && |d.passwordHash| >= 6
      && !IsSpace(d.passwordHash[0]) && !IsSpace(d.passwordHash[|d.passwordHash| - 1])
      && IsDigits(d.inn) && |d.inn| == 10 && d.username != []
  {
    var fields := Required(f);
    var d := BuildUserData(fields);
    var p := Strip(f.password);
    assert p == [] || (!IsSpace(p[0]) && !IsSpace(p[|p| - 1]));
    assert d.passwordHash == p && |p| >= 6;
    assert fields[LOGIN] != [];
  }

  /** The corrected check only refuses more: whatever it accepts, the written one accepts. */
  lemma {:induction false} StrippedCheckIsStricter(f: RegisterForm)
    requires RegisterInputErrorStripped(Required(f), f.password, f.confirmPassword) == None
    ensures RegisterInputError(Required(f), f.password, f.confirmPassword) == None
  {
    assert |Strip(f.password)| <= |f.password|;
  }

  datatype Page = LoginPage | RegisterPage

  datatype LoginOutcome = FillAllFields | Welcome(username: string, roleName: string) | WrongCredentials

  /**
   * After a successful `register`, signing in with the same login and password texts finds
   * the new user, whose role is shown as "Partner".
   */
  lemma {:induction false} RegisteredUserCanLogIn(s: Session, f: RegisterForm)
    requires s.Valid() && RegisterInputError(Required(f), f.password, f.confirmPassword) == None
    requires forall k :: k in s.committed.users ==> s.committed.users[k].username != Strip(f.username)
    requires forall k :: k in s.committed.partners ==> s.committed.partners[k].inn != Strip(f.inn)
    ensures var d := BuildUserData(Required(f));
      var t := Models.Register(s, d, NO_FAULTS);
      var user := UserByLogin(t.0, Strip(f.username), Strip(f.password), false, false).1;
      && t.1 == Registered
      && Strip(f.username) != [] && Strip(f.password) != []
      && user.Some? && user.value.LoginRow?
      && user.value.username == Strip(f.username) && user.value.roleId == 1
      && RoleName(user.value.roleId) == "Partner"
  {
    var fields := Required(f);
    var d := BuildUserData(fields);
    assert fields[LOGIN] != [] && fields[PASSWORD] != [];
    RegisterSucceeds(s, d);
    RegisteredUserIsFound(s, d);
    PartnerRoleName();
  }

  /** Role 1, the one `register` gives, is shown as "Partner". */
  lemma PartnerRoleName()
    ensures RoleName(1) == "Partner"
  {
  }

  class RegistrationWindow {
    var page: Page
    var loginUsername: string
    var loginPassword: string
    var companyName: string
    var inn: string
    var director: string
    var email: string
    var username: string
    var password: string
    var confirmPassword: string

    function Form(): RegisterForm
      reads this
    {
      RegisterForm(companyName, inn, director, email, username, password, confirmPassword)
    }

    constructor()
      ensures page == LoginPage && Form() == BLANK_FORM
      ensures loginUsername == "" && loginPassword == ""
    {
      page := LoginPage;
      loginUsername := "";
      loginPassword := "";
      companyName := "";
      inn := "";
      director := "";
      email := "";
      username := "";
      password := "";
      confirmPassword := "";
    }

    /**
     * `login`: empty stripped fields are refused without asking the database; otherwise the
     * stripped pair is looked up and the user is welcomed with the name of the stored role.
     */
    method Login(db: DatabaseConnector, refused: bool, fault: bool) returns (outcome: LoginOutcome)
      requires db.Valid()
      modifies db
      ensures db.Valid()
      ensures Strip(loginUsername) == [] || Strip(loginPassword) == [] ==>
        outcome == FillAllFields && db.State() == old(db.State())
      ensures Strip(loginUsername) != [] && Strip(loginPassword) != [] ==>
        var r := UserByLogin(old(db.State()), Strip(loginUsername), Strip(loginPassword), refused, fault);
        && db.State() == r.0
        && (r.1.Some? ==> outcome == Welcome(r.1.value.username, RoleName(r.1.value.roleId)))
        && (r.1.None? ==> outcome == WrongCredentials)
    {
      var user := Strip(loginUsername);
      var pass := Strip(loginPassword);
      if user == [] || pass == [] {
        return FillAllFields;
      }
      var found := GetUserByLogin(db, user, pass, refused, fault);
      if found.Some? {
        return Welcome(found.value.username, RoleName(found.value.roleId));
      }
      return WrongCredentials;
    }

    /** `validate_register_input`: walks the required fields, then the format checks. */
    method ValidateRegisterInput() returns (ok: bool, warning: string)
      ensures var e := RegisterInputError(Required(Form()), password, confirmPassword);
        (ok <==> e == None) && (!ok ==> Some(warning) == e)
    {
      var fields := Required(Form());
      var i := 0;
      while i < |fields|
        invariant 0 <= i <= |fields|
        invariant FirstBlank(fields, i) == FirstBlank(fields, 0)
      {
        if fields[i] == [] {
          return false, MissingField(LABELS[i]);
        }
        i := i + 1;
      }
      var innText := fields[INN];
      if !IsDigits(innText) || |innText| != 10 {
        return false, BAD_INN;
      }
      var emailText := fields[EMAIL];
      if '@' !in emailText || '.' !in emailText {
        return false, BAD_EMAIL;
      }
      if password != confirmPassword {
        return false, PASSWORDS_DIFFER;
      }
      if |password| < 6 {
        return false, PASSWORD_TOO_SHORT;
      }
      return true, "";
    }

    /**
     * `register`: validate, submit the record, and on success show the message, clear the
     * form and go back to the login page; on failure show the message and keep the form.
     */
    method Register(db: DatabaseConnector, f: RegisterFaults) returns (shown: string)
      requires db.Valid()
      modifies this, db
      ensures db.Valid()
      ensures var e := RegisterInputError(Required(old(Form())), old(password), old(confirmPassword));
        e.Some? ==> shown == e.value && db.State() == old(db.State()) && unchanged(this)
      ensures var e := RegisterInputError(Required(old(Form())), old(password), old(confirmPassword));
        e.None? ==>
        var r := Models.Register(old(db.State()), BuildUserData(Required(old(Form()))), f);
        && db.State() == r.0 && shown == Reply(r.1).1
        && (r.1 == Registered ==>
              && Form() == BLANK_FORM && page == LoginPage
              && loginUsername == old(loginUsername) && loginPassword == old(loginPassword))
        && (r.1 != Registered ==> unchanged(this))
    {
      var ok, warning := ValidateRegisterInput();
      if !ok {
        return warning;
      }
      var userData := BuildUserData(Required(Form()));
      shown := Submit(db, userData, f);
    }

    /** The part of `register` after the checks: submit, then clear the form or keep it. */
    method Submit(db: DatabaseConnector, userData: Models.Registration, f: RegisterFaults)
      returns (shown: string)
      requires db.Valid()
      modifies this, db
      ensures db.Valid()
      ensures var r := Models.Register(old(db.State()), userData, f);
        && db.State() == r.0 && shown == Reply(r.1).1
        && (r.1 == Registered ==>
              && Form() == BLANK_FORM && page == LoginPage
              && loginUsername == old(loginUsername) && loginPassword == old(loginPassword))
        && (r.1 != Registered ==> unchanged(this))
    {
      var reply := RegisterNewUser(db, userData, f);
      if reply.0 {
        ClearRegisterFields();
        page := LoginPage;
      }
      return reply.1;
    }

    /** `clear_register_fields` */
    method ClearRegisterFields()
      modifies this
      ensures Form() == BLANK_FORM
      ensures page == old(page) && loginUsername == old(loginUsername)
      ensures loginPassword == old(loginPassword)
    {
      companyName := "";
      inn := "";
      director := "";
      email := "";
      username := "";
      password := "";
      confirmPassword := "";
    }
  }
}
