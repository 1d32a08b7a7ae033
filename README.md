# ERP System Manager: a verified model of its data layer and form rules

This project models the core of a small PyQt/MySQL desktop application for managing
partners, suppliers and products. The model covers:

- the shared database connection: `DatabaseConnector`, its `connect`, `disconnect` and
  `execute_query`, and the `get_db_connector` singleton;
- the data-access functions of `db/models.py`: login lookup, the username and INN checks, the
  registration of a partner with its user, the product projection, the `update_product` stub
  and the supplier CRUD functions;
- the duplicate supplier functions of `Project/db/models.py`;
- the partner manager of `kalash.py`:
  - `DatabaseManager`, with its provisioning rules: one login per partner, unique usernames,
    role resolution with a fallback, and deletion that cascades to the partner's users;
  - the partner and user dialogs;
  - the user column of the partner table;
- the decisions of the registration, supplier and warehouse windows.

The database is an in-memory store: one map per table (`partners`, `users`, `roles`,
`partner_types`, `suppliers`, `products`, `product_types`), keyed by id, plus one
id counter that hands out the ids of every table. MySQL keeps a separate AUTO_INCREMENT counter per
table; "## Left out" lists the consequences of sharing one. Every SQL statement the application sends becomes
its effect on that store (`Sql.Apply`).

A connection keeps two views of the store:

- `committed` is what other connections see;
- `pending` is what the connection itself sees, its open transaction included.

ROLLBACK restores `committed`, but keeps the counter, because InnoDB does not reuse the ids it has handed out.

Each imperative piece of the source is a class or a method. Each method is proved equal to a
pure specification function (`Connector.Execute`, `Models.Register`, `Warehouse.EditAsWritten`,
and so on). The lemmas about those functions state what the source promises.

Files and modules:

| file | module | source |
|---|---|---|
| wrappers.dfy | Wrappers | `Option`/`Result` |
| text.dfy | Text | Python's `str.strip`, `isdigit`, `isalnum`, `lower`, `str(int)` and `int(str)` |
| store.dfy | Store | the tables and the row-level effects of the statements |
| sql.dfy | Sql | the statements and the rows they return |
| connector.dfy | Connector | `db/database_connector.py` |
| models.dfy | Models | `db/models.py` |
| project_models.dfy | ProjectModels | `Project/db/models.py` |
| partner_manager.dfy | PartnerManager | `kalash.py` |
| registration.dfy | Registration | `windows/registration_window.py`, `config.py` |
| supplier_window.dfy | SupplierWindow | `windows/supplier_manager_window.py` |
| warehouse.dfy | Warehouse | `windows/warehouse_manager_window.py` |

Where the model differs from the code's evident intent, it follows the code, with one exception:
the connector (`db/database_connector.py`). Its two except clauses are modelled as intended,
and `Connector.ConnectAsWritten` and `Connector.ExecuteAsWritten` model them as written. The
"Findings" section lists every such place, each with the as-written member and the corrected one.

## Model

| member | source | states |
|---|---|---|
| Text.Strip | windows/registration_window.py:272-273 | `str.strip()`: the result is no longer than the input, has no whitespace at either end, and is empty exactly when the input is all whitespace; with `StripIsSlice`, only leading and trailing whitespace is removed |
| Text.StripIsSlice | windows/registration_window.py:272-273 | what `str.strip()` keeps is one contiguous piece of the input, and everything before and after that piece is whitespace |
| Text.StripIdempotent | windows/supplier_manager_window.py:99-105 | stripping a stripped text changes nothing, so the data `get_form_data` submits is already trimmed |
| Text.KeepAlnum | kalash.py:272 | keeps exactly the alphanumeric characters: every kept character is alphanumeric and comes from the input, and every alphanumeric character of the input is kept; `KeepAlnumAppend` and `KeepAlnumChar` add that order and repetitions are kept |
| Text.KeepAlnumChar | kalash.py:272 | one character is kept exactly when it is alphanumeric |
| Text.KeepAlnumAppend | kalash.py:272 | the filter distributes over concatenation, so the kept characters come out in input order and as often as they occur |
| Text.IsAlnum | kalash.py:272 | `c.isalnum()`: ASCII digits and the ASCII and basic Cyrillic letters |
| Text.IsSpace | windows/registration_window.py:272 | `c.isspace()` on ASCII: space, \t, \n, \v, \f, \r and the separators 0x1c-0x1f |
| Text.IsDigits | windows/registration_window.py:317 | `s.isdigit()`: non-empty and made of ASCII digits only |
| Text.Lower | kalash.py:272 | `lower()`, character by character: upper-case letters become lower-case, and all other characters stay as they are |
| Text.IntText | windows/warehouse_manager_window.py:227 | `str(id)` of the id cell: non-empty, starting with '-' exactly for negative ids |
| Text.NatText | windows/warehouse_manager_window.py:227 | `str(n)` of a natural number: non-empty digits, with a leading '0' only for 0 |
| Text.ParseInt | windows/warehouse_manager_window.py:261 | `int(text)`: a value exactly when the stripped text is digits with at most one leading sign; only a '-' gives a negative value, and plain digits never do |
| Text.ParseIntOfIntText | windows/warehouse_manager_window.py:227-261 | `int(str(n)) == n`: reading back the id cell written at load time yields the product's id |
| Store.Select | db/models.py:51 | a filtered scan returns exactly the matching ids, in ascending order, and returns none when no row matches |
| Store.SelectFirst | kalash.py:97-98 | the first row a filtered scan returns (`fetchone`, `LIMIT 1`, `result[0]`) is the matching row with the least id, and there is one whenever some row matches |
| Store.RolledBack | db/database_connector.py:75-78 | ROLLBACK restores every committed table and keeps the AUTO_INCREMENT counter |
| Store.OneUserPerPartner | kalash.py:96-130 | a partner has at most one user row |
| Store.UniqueUsernames | kalash.py:96-130 | no two user rows share a username |
| Store.InsertPartner | kalash.py:237-240 | an INSERT into partners takes the next id and keeps the store valid |
| Store.InsertPartnerAddsOneRow | kalash.py:237-240 | the new partner row sits under an id no row had, every existing row is kept, and no other table changes |
| Store.InsertUser | kalash.py:124-128 | an INSERT into users takes the next id and keeps the store valid |
| Store.InsertUserAddsOneRow | kalash.py:124-128 | the new user row sits under an id no row had, every existing row is kept, and no other table changes |
| Store.InsertSupplier | db/models.py:220-226 | an INSERT into suppliers takes the next id and keeps the store valid |
| Store.InsertSupplierAddsOneRow | db/models.py:220-226 | the new supplier row sits under an id no row had, every existing row is kept, and no other table changes |
| Store.InsertRole | kalash.py:63-66 | an INSERT into roles takes the next id and keeps the store valid |
| Store.InsertRoleAddsOneRow | kalash.py:63-66 | the new role row sits under an id no row had, every existing row is kept, and no other table changes |
| Store.InsertPartnerType | kalash.py:51-54 | an INSERT into partner_types takes the next id and keeps the store valid |
| Store.InsertPartnerTypeAddsOneRow | kalash.py:51-54 | the new type row sits under an id no row had, every existing row is kept, and no other table changes |
| Store.UpdatePartner | kalash.py:280-284 | `UPDATE partners ... WHERE partner_id`: the same ids, only that row replaced, no other table changed; a missing id matches nothing |
| Store.UpdateUser | kalash.py:164-176 | `UPDATE users ... WHERE user_id`: the same ids, only that row replaced, no other table changed; a missing id matches nothing |
| Store.UpdateSupplier | db/models.py:233-240 | `UPDATE suppliers ... WHERE supplier_id`: the same ids, only that row replaced, no other table changed; a missing id matches nothing |
| Store.DeleteUser | kalash.py:190 | `DELETE FROM users WHERE user_id`: exactly that id goes, the other rows stay as they were, no other table changes |
| Store.DeleteUsersOfPartner | kalash.py:308 | `DELETE FROM users WHERE partner_id`: exactly the partner's users go, the other rows stay as they were, no other table changes |
| Store.DeletePartner | kalash.py:310 | `DELETE FROM partners WHERE partner_id`: exactly that id goes, the other rows stay as they were, no other table changes |
| Store.DeleteSupplier | db/models.py:247 | `DELETE FROM suppliers WHERE supplier_id`: exactly that id goes, the other rows stay as they were, no other table changes |
| Store.InsertUserKeepsInvariants | kalash.py:96-130 | adding a user for a partner without one, under a free username, keeps one login per partner and unique usernames |
| Store.DeletePartnerCascades | kalash.py:303-312 | deleting a partner's users and then the partner removes exactly those rows; every other row and table is unchanged |
| Store.DeletePartnerKeepsInvariants | kalash.py:303-312 | deletion keeps both provisioning invariants |
| Sql.ProductRows | db/models.py:152-162 | the product join returns exactly the products whose type row exists, in ascending id order, each under the renamed columns `id`, `name`, `product_type` and `price` |
| Sql.ProductRowsOfIncreasing | db/models.py:152-162 | joined rows taken in ascending id order keep their ids ascending |
| Sql.SupplierRows | db/models.py:212 | `SELECT * FROM suppliers` returns exactly the supplier rows |
| Sql.SortByCompany | db/models.py:212 | ORDER BY company_name: the same rows, as a multiset, sorted by company name |
| Sql.InsertByCompany | db/models.py:212 | inserting one row into rows sorted by company name keeps them sorted and adds exactly that row |
| Sql.LexTotal | db/models.py:212 | the company-name order is total |
| Sql.Apply | db/database_connector.py:62-73 | a SELECT leaves the store unchanged; an INSERT takes the next id and reports it as `lastrowid`; any other statement returns no rows and leaves `lastrowid` 0 |
| Sql.LoginRows | db/models.py:35 | the login query returns one row per user whose name and stored password match, in id order, and at least one whenever such a user exists |
| Connector.Execute | db/database_connector.py:49-80 | `execute_query` as intended (the except clause catching the driver's errors): the answer is truthy exactly when the connection is open, the driver does not fail, and either commit is set, fetch is not set, or the fetch returns rows; without commit nothing becomes durable |
| Connector.ConnectTo | db/database_connector.py:20-40 | `connect` as intended: True exactly when the server accepts, and the open transaction is discarded either way |
| Connector.Disconnected | db/database_connector.py:42-47 | after `disconnect` the connection is not open and the durable tables are unchanged |
| Connector.NoConnectionRunsNothing | db/database_connector.py:58-60 | without an open connection nothing runs; the answer is None with fetch and False without |
| Connector.CommitTakesPrecedence | db/database_connector.py:66-68 | with commit, the whole transaction becomes durable; the answer is the new row's id for an INSERT and True otherwise, whatever fetch says |
| Connector.FetchReturnsRows | db/database_connector.py:70-71 | fetch without commit returns the rows and makes nothing durable |
| Connector.DriverErrorRollsBack | db/database_connector.py:75-80 | as intended: a driver error rolls the transaction back, leaves the durable tables as they were, and answers None with fetch and False without |
| Connector.DisconnectIdempotent | db/database_connector.py:42-47 | a second `disconnect` does nothing |
| Connector.ConnectAsWritten | db/database_connector.py:35 | as written: a refused connection ends with an AttributeError and leaves the connector as it was; an accepted one behaves as `ConnectTo` |
| Connector.ExecuteAsWritten | db/database_connector.py:75 | as written: a driver error on an open connection ends with an AttributeError and changes nothing; every other call behaves as `Execute` |
| Connector.RefusedConnectionRaisesAsWritten | db/database_connector.py:35 | as written, a refused reconnect returns no False and leaves the old connection open with its transaction, where the intended catch returns False with no connection |
| Connector.DriverErrorRaisesAsWritten | db/database_connector.py:75 | as written, a driver error in a transaction with pending statements escapes without the ROLLBACK that the intended catch performs |
| Connector.DatabaseConnector.constructor | db/database_connector.py:13-18 | starts with no connection and no cursor |
| Connector.DatabaseConnector.Connect | db/database_connector.py:20-40 | as intended: on success both connection and cursor are set and True is returned; on failure both are None and False is returned |
| Connector.DatabaseConnector.Disconnect | db/database_connector.py:42-47 | closes only an open connection; otherwise nothing changes |
| Connector.DatabaseConnector.ExecuteQuery | db/database_connector.py:49-80 | the new state and the answer are those of `Execute` |
| Connector.Registry.GetDbConnector | db/database_connector.py:85-90 | always returns the same instance |
| Models.FirstRow | db/models.py:46 | `result[0] if result else None`: present exactly when rows came back, and then it is the first row |
| Models.UserByLogin | db/models.py:24-46 | None when the connection or the query fails; otherwise the user with the least id whose username and stored `password_hash` both equal the inputs, compared as plaintext, or None when there is no such user |
| Models.GetUserByLogin | db/models.py:24-46 | the new state and the answer are those of `UserByLogin` |
| Models.UsernameExists | db/models.py:48-53 | true exactly when the query runs and some user has that username |
| Models.CheckUsernameExists | db/models.py:48-53 | the new state and the answer are those of `UsernameExists` |
| Models.InnExists | db/models.py:55-60 | true exactly when the query runs and some partner has that INN |
| Models.CheckInnExists | db/models.py:55-60 | the new state and the answer are those of `InnExists` |
| Models.Reply | db/models.py:62-134 | the success flag is true only for a completed registration |
| Models.Register | db/models.py:62-134 | `register_new_user` keeps the session valid whichever step fails; `RegisterCommits` states what each outcome commits |
| Models.Provision | db/models.py:81-130 | the three statements of the `try` block keep the session valid whichever one fails; `ProvisionCommits` states what each outcome commits |
| Models.ProvisionCommits | db/models.py:81-130 | the outcome is "partner not created" exactly when the partner insert fails, and then nothing is written; a failed id read or user insert leaves the partner alone committed; success commits the partner and then its user; with no driver error it succeeds |
| Models.RegisterCommits | db/models.py:62-134 | the connection fails exactly when refused; refusals and a failed partner insert commit nothing; later failures commit the partner alone; success commits the partner and its user; past a lookup that ran, no committed user has the username |
| Models.RegisterPartnerFailureWritesNothing | db/models.py:96-99 | when the partner insert fails, the insert raised and nothing at all is committed |
| Models.RegisterKeepsInvariants | db/models.py:62-134 | with a username lookup that runs, registration keeps usernames unique and one login per partner, provided no user already refers to the new partner's id |
| Models.FailedUsernameCheckAdmitsDuplicate | db/models.py:48-53 | with the connector's intended catch, a driver error in the username lookup reads as "free" (`bool(None)` is False): a taken username is registered and two users then share it |
| Models.RegisterNewUser | db/models.py:62-134 | the new state and the `(success, message)` pair are those of `Register` |
| Models.InsertPartnerAndUser | db/models.py:81-130 | the insert steps of `register_new_user`: the outcome is one of its four results |
| Models.RegisterChecksUsernameFirst | db/models.py:72-74 | a taken username is refused before the INN is looked at, and nothing is written |
| Models.RegisterRefusesTakenInn | db/models.py:77-79 | a free username with a taken INN is refused, and nothing is written |
| Models.ProvisionSucceeds | db/models.py:81-130 | on an open connection with no failure, the partner and then the user pointing at the partner's id are committed |
| Models.ProvisionPartialFailure | db/models.py:96-127 | when reading the id back or inserting the user fails, exactly the partner insert stays committed |
| Models.RegisterSucceeds | db/models.py:83-130 | with no failure, one partner of type 1 and one user referencing that partner's id are committed, with the given password hash and role |
| Models.RegisteredUserIsFound | db/models.py:24-46 | the user a registration creates is then found by `get_user_by_login` with its name and password, its role, and, with this model's single id counter, the id right after its partner's |
| Models.RegisterPartialFailureKeepsPartner | db/models.py:96-127 | a failed user insert leaves the partner committed, and no user is added for it |
| Models.UpdateProduct | db/models.py:137-141 | the stub returns None and changes nothing |
| Models.ProductList | db/models.py:143-174 | [] when the connector answers None or False; otherwise exactly the joined products, in ascending id order; nothing becomes durable |
| Models.GetAllProducts | db/models.py:143-174 | the new state and the rows are those of `ProductList` |
| Models.SupplierOf | db/models.py:220-225 | the stored row has the given name and INN, and a missing `contact_phone` becomes '' |
| Models.SupplierList | db/models.py:208-214 | all suppliers sorted by company name, or [] when the query yields nothing or fails |
| Models.GetAllSuppliers | db/models.py:208-214 | the new state and the rows are those of `SupplierList` |
| Models.SupplierAdded | db/models.py:216-227 | success exactly when the connector does not answer False; then the supplier row is committed |
| Models.AddNewSupplier | db/models.py:216-227 | the new state and the answer are those of `SupplierAdded` |
| Models.SupplierEdited | db/models.py:229-241 | success exactly when the connector does not answer False; then only that supplier is updated, and a missing id changes nothing |
| Models.EditSupplierInfo | db/models.py:229-241 | the new state and the answer are those of `SupplierEdited` |
| Models.SupplierDeleted | db/models.py:243-249 | success exactly when the connector does not answer False, even if no row matched; then only that id is removed |
| Models.DeleteSupplierById | db/models.py:243-249 | the new state and the answer are those of `SupplierDeleted` |
| Models.SupplierById | db/models.py:251-257 | the supplier's row when the query runs and the id exists, else None |
| Models.GetSupplierById | db/models.py:251-257 | the new state and the answer are those of `SupplierById` |
| Models.AddThenGet | db/models.py:216-257 | a supplier that was added is then found under the id it received, with '' for a missing phone |
| Models.AddThenList | db/models.py:208-227 | a supplier that was added then appears in the list |
| Models.EditThenGet | db/models.py:229-257 | an edited supplier is then read back with the new data |
| Models.DeleteThenGet | db/models.py:243-257 | a deleted supplier is no longer found, and every other supplier still is |
| ProjectModels.GetAllSuppliers | Project/db/models.py:6-12 | the same specification as `Models.GetAllSuppliers`: sorted by company name, [] on failure |
| ProjectModels.AddNewSupplier | Project/db/models.py:15-26 | the same specification as `Models.AddNewSupplier` |
| ProjectModels.EditSupplierInfo | Project/db/models.py:29-41 | the same specification as `Models.EditSupplierInfo` |
| ProjectModels.DeleteSupplier | Project/db/models.py:44-50 | the same specification as `Models.DeleteSupplierById` |
| ProjectModels.GetSupplierById | Project/db/models.py:53-58 | the same specification as `Models.GetSupplierById` |
| PartnerManager.HashPassword | kalash.py:83-85 | the stand-in digest of a password |
| PartnerManager.HashInjective | kalash.py:83-85 | different passwords have different hashes |
| PartnerManager.GenerateRandomPassword | kalash.py:87-90 | as many characters as picks, each an ASCII letter or digit |
| PartnerManager.GeneratePartnerUsername | kalash.py:270-274 | the company name's alphanumeric characters, lower-cased and cut to at most 10, then '_' and four digits |
| PartnerManager.ResolveRoleId | kalash.py:115-122 | the least-id 'Partner_User' role if one exists, else the least-id role, else 1 |
| PartnerManager.CreateUser | kalash.py:92-130 | fails exactly when the partner already has a user or the username is taken; otherwise adds exactly one user with that partner, username, hashed password and resolved role, and returns the plaintext password (generated when none is given) |
| PartnerManager.CreateUserKeepsInvariants | kalash.py:92-130 | `create_partner_user` keeps one login per partner and unique usernames |
| PartnerManager.CreatedUserIsTheOnlyOne | kalash.py:92-130 | after a success, the new user is the partner's only login and the only holder of its username |
| PartnerManager.UpdateUserEffect | kalash.py:152-184 | refuses exactly a username held by another user; otherwise renames the user, changes the hash only for a non-empty password, and changes no other table |
| PartnerManager.Edited | kalash.py:166-179 | role and partner are kept; the hash is replaced only for a non-empty password |
| PartnerManager.UpdateUserKeepsInvariants | kalash.py:152-184 | `update_partner_user` keeps both provisioning invariants |
| PartnerManager.ResetPasswordEffect | kalash.py:198-214 | only that user's hash changes, to the hash of the new password |
| PartnerManager.Consecutive | kalash.py:51-66 | the rows of a multi-row INSERT get consecutive ids |
| PartnerManager.InsertPartnerTypes | kalash.py:51-54 | adds the rows under the next ids and keeps every other table and row |
| PartnerManager.InsertRoles | kalash.py:63-66 | adds the rows under the next ids and keeps every other table and row |
| PartnerManager.Seeding | kalash.py:42-71 | each table is seeded only when it is empty, and a driver error stops the seeding; an empty table with no error receives exactly the seeded rows and the seeding is committed; users, partners and suppliers are never touched |
| PartnerManager.SeedingEmptyDatabase | kalash.py:42-71 | an empty database gets the five organisation types under consecutive new ids, then the four roles; with this model's single id counter, the roles take the ids right after the types |
| PartnerManager.SeededRolesResolve | kalash.py:115-122 | with exactly the four seeded roles, the role lookup for a new partner login picks 'Partner_User' |
| PartnerManager.SeededRoleIsPartnerUser | kalash.py:115-122 | after seeding an empty database (kalash.py:42-71), a new partner login gets the seeded 'Partner_User' role, the third role row, under id `nextId + 7` with this model's single id counter |
| PartnerManager.SavePartner | kalash.py:654-687 | name, INN and director are checked in that order, then the type (none selected, or id 0); the first missing one is the warning; on success the stored texts are stripped and `create_user` holds only when not editing and the box is ticked |
| PartnerManager.SaveUser | kalash.py:387-404 | fails exactly for a blank username; the password is None exactly when generation is ticked or the field is empty |
| PartnerManager.SaveUserThenCreate | kalash.py:387-404 | a password left to the generator is generated by `create_partner_user` |
| PartnerManager.UserText | kalash.py:831-841 | a partner with users shows its username, or "Есть пользователь" when the username is missing or empty; a partner without users shows "Нет пользователя" |
| PartnerManager.UserColumn | kalash.py:222-223 | the two subqueries of `get_all_partners` for one partner, the user count and the first username, feed `UserText`; see `UserColumnShowsTheLogin` and `UserColumnWithoutLogin` |
| PartnerManager.UserColumnShowsTheLogin | kalash.py:216-231 | with one login per partner, the column shows that login's username |
| PartnerManager.UserColumnWithoutLogin | kalash.py:222-223 | a partner without users shows "Нет пользователя" |
| PartnerManager.PartnerData.constructor | kalash.py:238-253 | the row `add_partner` inserts; `create_user` defaults to True |
| PartnerManager.AddPartnerAsWritten | kalash.py:233-268 | succeeds exactly when the partner insert does not fail, and then reports the new id |
| PartnerManager.AddPartnerCommittingFirst | kalash.py:233-268 | the corrected `add_partner`: succeeds exactly when the partner insert does not fail, and reports the new id |
| PartnerManager.AddPartnerAsWrittenLosesPartner | kalash.py:253-264 | as written, a driver error while provisioning the login loses the partner row, yet success is reported with its id |
| PartnerManager.AddPartnerCommittingFirstKeepsPartner | kalash.py:253-264 | corrected, a reported success always means the partner is committed under the reported id, and a provisioned login is the partner's only one |
| PartnerManager.DatabaseManager.constructor | kalash.py:17-21 | connects, and seeds the base data only when the connection succeeds; then the connection's view is the seeded database, committed whenever the seeding wrote anything |
| PartnerManager.DatabaseManager.InitializeBaseData | kalash.py:42-71 | the tables after the call are those of `Seeding`, committed when anything was written |
| PartnerManager.DatabaseManager.CreatePartnerUser | kalash.py:92-135 | the outcome of `CreateUser`, committed; a driver error rolls back and returns the error text |
| PartnerManager.DatabaseManager.UpdatePartnerUser | kalash.py:152-184 | the outcome of `UpdateUserEffect`, committed; a driver error rolls back |
| PartnerManager.DatabaseManager.DeletePartnerUser | kalash.py:186-196 | deletes the user and commits; a driver error rolls back |
| PartnerManager.DatabaseManager.ResetPartnerUserPassword | kalash.py:198-214 | a new generated password is hashed into the user and returned, even when no such user exists |
| PartnerManager.DatabaseManager.AddPartner | kalash.py:233-268 | the outcome of `AddPartnerAsWritten` |
| PartnerManager.DatabaseManager.AddPartnerCommitted | kalash.py:233-268 | the outcome of `AddPartnerCommittingFirst` |
| PartnerManager.DatabaseManager.UpdatePartner | kalash.py:276-301 | only that partner row is rewritten and committed; a missing id changes nothing; a driver error rolls back |
| PartnerManager.DatabaseManager.DeletePartner | kalash.py:303-316 | the partner's users and then the partner are deleted and committed; a missing id still succeeds |
| PartnerManager.DatabaseManager.CloseConnection | kalash.py:318-322 | closes only an open connection, which discards its open transaction |
| Registration.RoleName | windows/registration_window.py:291 | the role's name from `USER_ROLES`, or "Unknown" for an id not in it |
| Registration.Required | windows/registration_window.py:301-309 | the seven required fields, stripped, in the order they are checked |
| Registration.FirstBlank | windows/registration_window.py:311-314 | the first empty field, and every field before it is non-empty |
| Registration.MissingField | windows/registration_window.py:313 | the warning for a blank field names that field |
| Registration.RegisterInputError | windows/registration_window.py:299-337 | the checks in the source's order: the first blank field, then a wrong INN, then an email without '@' or '.', then different passwords, then a password under 6 characters as typed; accepted exactly when none applies |
| Registration.RegisterInputErrorStripped | windows/registration_window.py:299-337 | the corrected check, in the same order and with the same messages, except that the length is measured on the stripped password that is stored |
| Registration.BuildUserData | windows/registration_window.py:343-351 | the record submitted: the stripped fields, with the stripped password as `password_hash` and `role_id` 1 |
| Registration.StripLeadingSpaces | windows/registration_window.py:349 | leading spaces before one character strip away to that character |
| Registration.ShortPasswordAccepted | windows/registration_window.py:333-349 | as written, "     a" passes the length check and "a" is stored |
| Registration.AcceptedPasswordIsLongEnough | windows/registration_window.py:333-349 | under the corrected check, the stored password has at least 6 characters |
| Registration.StrippedCheckIsStricter | windows/registration_window.py:299-337 | every form the corrected check accepts is accepted as written |
| Registration.RegisteredUserCanLogIn | windows/registration_window.py:339-356 | a validated form registered with a free username and INN can then log in with the stored username and password |
| Registration.RegistrationWindow.constructor | windows/registration_window.py:14-18 | opens on the login page with empty fields |
| Registration.RegistrationWindow.Login | windows/registration_window.py:271-297 | no lookup when the stripped username or password is empty; otherwise the result of `get_user_by_login` on the stripped texts |
| Registration.RegistrationWindow.ValidateRegisterInput | windows/registration_window.py:299-337 | accepted exactly when `RegisterInputError` finds nothing; otherwise its warning |
| Registration.RegistrationWindow.Register | windows/registration_window.py:339-366 | only validated data reaches `register_new_user`, as the stripped texts with role 1; a refused form changes nothing; a success clears the form and keeps the login fields |
| Registration.RegistrationWindow.Submit | windows/registration_window.py:355-364 | the database ends as `register_new_user` leaves it and its message is shown; success clears the fields, keeps the login fields and shows the login page, failure keeps the form |
| Registration.RegistrationWindow.ClearRegisterFields | windows/registration_window.py:368-376 | the seven registration fields become empty, and nothing else changes |
| SupplierWindow.FormError | windows/supplier_manager_window.py:80-97 | company name, then INN non-empty, then INN all digits; the first failure is the warning, and the form is accepted exactly when all three hold |
| SupplierWindow.FormData | windows/supplier_manager_window.py:99-105 | the three fields, stripped |
| SupplierWindow.FormOf | windows/supplier_manager_window.py:72-76 | the form filled from a supplier row |
| SupplierWindow.AcceptedFormIsStoredStripped | windows/supplier_manager_window.py:80-105 | an accepted form submits a non-empty name, a digits-only INN, and trimmed texts |
| SupplierWindow.AddedSupplierReloadsIntoForm | windows/supplier_manager_window.py:64-123 | a supplier that was added, once selected, fills a form that is accepted again and submits the same data |
| SupplierWindow.ListedSuppliersAreSelectable | windows/supplier_manager_window.py:52-71 | every listed supplier's id is at least 1, so selecting it counts as a selection |
| SupplierWindow.SupplierManagerWindow.constructor | windows/supplier_manager_window.py:15-24 | nothing selected, an empty form, the table loaded |
| SupplierWindow.SupplierManagerWindow.LoadSuppliers | windows/supplier_manager_window.py:52-62 | the table shows `get_all_suppliers()`, and nothing else changes |
| SupplierWindow.SupplierManagerWindow.OnSupplierSelected | windows/supplier_manager_window.py:64-78 | selecting a row sets `current_supplier_id` to its id, and fills the form when the supplier is found |
| SupplierWindow.SupplierManagerWindow.AddSupplier | windows/supplier_manager_window.py:107-123 | persistence is called only after validation passes; success clears the form and reloads the table |
| SupplierWindow.SupplierManagerWindow.EditSupplier | windows/supplier_manager_window.py:125-145 | refused while `current_supplier_id` is falsy (None or 0), then the form check, then the update |
| SupplierWindow.SupplierManagerWindow.DeleteSupplier | windows/supplier_manager_window.py:147-171 | refused while `current_supplier_id` is falsy; otherwise deletes only after confirmation |
| SupplierWindow.SupplierManagerWindow.ValidateForm | windows/supplier_manager_window.py:80-97 | the warning of `FormError` on the current texts |
| SupplierWindow.SupplierManagerWindow.ClearForm | windows/supplier_manager_window.py:173-179 | no selection, empty texts, and the table kept |
| Warehouse.SortAfterOption | windows/warehouse_manager_window.py:166-183 | option 0 gives column -1 ascending; options 1/3/5 give columns 1/2/3 ascending; options 2/4/6 give them descending; any other index changes nothing |
| Warehouse.OptionFor | windows/warehouse_manager_window.py:172-183 | the combo index for a sort of columns 1-3 |
| Warehouse.SortOptionsRoundTrip | windows/warehouse_manager_window.py:166-183 | each sort of columns 1-3 is offered by exactly one index, and each index from 1 to 6 gives exactly one sort |
| Warehouse.HeaderDoubleClicked | windows/warehouse_manager_window.py:157-164 | only columns 1-3 act, and they flip the current order |
| Warehouse.HeaderTwiceRestoresOrder | windows/warehouse_manager_window.py:157-164 | two double-clicks on the same header give back the original order |
| Warehouse.FirstWithId | windows/warehouse_manager_window.py:264-272 | the position of the first product with that id, or none when no product has it |
| Warehouse.IdCells | windows/warehouse_manager_window.py:212-229 | the first column holds `str(id)` of each loaded product |
| Warehouse.SelectedRowFindsItsProduct | windows/warehouse_manager_window.py:212-272 | the id read from any row of the loaded products, in load order, finds a product with that id, at or before that row; since the loaded ids ascend, it finds exactly that row of the loaded list |
| Warehouse.InitialType | windows/warehouse_manager_window.py:40-45 | the dialog's type combo opens on the product's type when listed, else on the first item |
| Warehouse.UpdatedType | windows/warehouse_manager_window.py:68 | the submitted type is always one of the combo's items |
| Warehouse.Message | windows/warehouse_manager_window.py:249-310 | each outcome's message box; a cancelled dialog and the two conversions that raise show none |
| Warehouse.EditAsWritten | windows/warehouse_manager_window.py:249-310 | the checks run in order and the first that fails is the outcome: no selection (exactly for row -1), an id text that is not a number, an id not among the loaded products, a cancelled dialog, a price that is not a number, an empty stripped name, a negative price; an update is attempted exactly when all pass, for that id with the stripped name, and it is always reported failed; the "incorrect price" warning is never shown |
| Warehouse.EditChecked | windows/warehouse_manager_window.py:249-310 | the corrected edit: nothing raises; a non-number price shows the "incorrect price" warning, a non-number id cell counts as not found, and all else is as written |
| Warehouse.PlaceholderRowRaises | windows/warehouse_manager_window.py:238-261 | as written, selecting the "Нет доступных товаров." row makes `int()` raise; corrected, it is "not found" |
| Warehouse.EmptyPriceRaises | windows/warehouse_manager_window.py:284-291 | as written, OK with an empty price raises and shows no warning; corrected, it shows "Некорректное значение цены." |
| Warehouse.CheckedUpdateIsValid | windows/warehouse_manager_window.py:276-299 | only the shown product, with a checked name and price and a listed type, reaches `update_product` |
| Warehouse.FirstWithIdIsFirstMatch | windows/warehouse_manager_window.py:264-268 | a scan from the front stops at the position `FirstWithId` names |
| Warehouse.WarehouseManagerWindow.constructor | windows/warehouse_manager_window.py:81-107 | connection refused: the error row and no products; otherwise the products are loaded |
| Warehouse.WarehouseManagerWindow.LoadProductsData | windows/warehouse_manager_window.py:196-247 | `original_products` is `get_all_products()`; the rows show their ids in load order with the sort indicator on column 0, ascending, or the "no products" row with the indicator unchanged |
| Warehouse.WarehouseManagerWindow.ApplySorting | windows/warehouse_manager_window.py:166-183 | the sort indicator becomes `SortAfterOption`, and nothing else changes |
| Warehouse.WarehouseManagerWindow.OnHeaderDoubleClicked | windows/warehouse_manager_window.py:157-164 | the sort indicator becomes `HeaderDoubleClicked`, and nothing else changes |
| Warehouse.WarehouseManagerWindow.FindProduct | windows/warehouse_manager_window.py:264-272 | the loop finds exactly `FirstWithId` |
| Warehouse.WarehouseManagerWindow.EditSelectedProduct | windows/warehouse_manager_window.py:249-310 | the outcome is `EditAsWritten` |

## Left out

- Qt widgets, layouts, styles, message boxes and debug printing are not modelled; only the decisions they show are. `windows/partner_window.py`, `windows/base_window.py` and `main.py` are display and wiring only.
- The PyMySQL driver and the SQL text are not modelled. Each statement is its effect on the tables. A driver error is a `bool` or `Option<string>` parameter of the operation that may fail.
- Commit failures are not modelled, and neither are failures inside the ROLLBACK of an except clause.
- `db/__init__.py` re-exports only three names, and it imports a `connect_to_db` that `db/database_connector.py` does not define. The model calls the `db/models.py` functions and `get_db_connector` directly, as the windows mean to.
- PartnerManager.HashPassword: SHA-256 is replaced by an injective stand-in (a tag before the password). Only injectivity is used, so one-wayness and the hex format are not modelled.
- `random` is not modelled. The chosen characters and digits are parameters (`picks`, `digits`) that the contracts constrain to the source's alphabets.
- Text.Strip: covers ASCII whitespace only (space, tab, newline, carriage return, vertical tab, form feed and the separators 0x1c-0x1f), not the other Unicode spaces Python strips.
- Store: one id counter serves every table, where MySQL keeps a separate AUTO_INCREMENT counter per table. Ids are still fresh and ascending within each table, but their values differ from a real server's.
- PartnerManager.SeedingEmptyDatabase: the role ids follow the type ids because of the shared counter; on MySQL both tables would start from their own counters.
- PartnerManager.SeededRoleIsPartnerUser: the id `nextId + 7` is an artefact of the shared counter; the role name it resolves to is not.
- Models.RegisteredUserIsFound: the user id `partner id + 1` is an artefact of the shared counter; name, role and the lookup are not.
- Connector.Execute: models the except clause as intended, catching the driver's errors. As written the clause raises AttributeError (see "## Findings"); `ExecuteAsWritten` models that.
- Connector.ConnectTo: models the except clause as intended; `ConnectAsWritten` models the AttributeError the code as written raises.
- Connector.DriverErrorRollsBack: states the intended rollback; `DriverErrorRaisesAsWritten` states what the code as written does.
- Connector.DatabaseConnector.Connect: follows `ConnectTo`, the intended catch.
- Models.FailedUsernameCheckAdmitsDuplicate: assumes the connector's intended catch. As written, the driver error in `check_username_exists` (db/models.py:72) escapes `execute_query` as AttributeError, `register_new_user` has no except clause around that call, and nothing is registered.
- Text.ParseInt: Unicode digits and the underscores `int()` allows between digits are not accepted.
- The database schema, its foreign keys and its UNIQUE constraints are not modelled: a duplicate username or INN is refused only by the lookups the application makes.
- Text.KeepAlnum: `isalnum` covers ASCII letters and digits plus the basic Cyrillic letters (А-я, Ё, ё), not the rest of Unicode. Text.Lower lower-cases the same set.
- `isdigit` accepts ASCII digits only.
- Prices are reals. `float()` is the dialog's `price` field, `None` when it raises. NaN, infinities, the thousands-separated display format and `QDoubleValidator` are not modelled.
- `min_partner_price` is an integer, the price in the smallest currency unit; the display format is not modelled.
- SELECTs without ORDER BY return rows in ascending id order (a scan of the primary key). ORDER BY company_name compares code points; MySQL collations are not modelled.
- Warehouse.WarehouseManagerWindow.ApplySorting: sets the sort indicator only. Qt's reordering of the table rows is not modelled; the row texts keep their load order.
- Warehouse.WarehouseManagerWindow.LoadProductsData: sets the sort indicator to column 0 but keeps the rows in load order. Qt's `sortByColumn(0)` compares the id texts, so "10" would be shown before "9"; that reordering is not modelled, and `Warehouse.SelectedRowFindsItsProduct` speaks of rows in load order.
- The initial sort indicator of the warehouse table (before any load) is a constructor parameter.
- Warehouse.WarehouseManagerWindow.EditSelectedProduct: the `if not product_id_item` branch (line 258) cannot occur, because every shown row has a first cell. The success message and the reload after `update_product` cannot occur, because the stub returns None. Exceptions caught by the generic except clauses are not modelled.
- `get_partner_types` (kalash.py:73-81) and `get_partner_user` (kalash.py:137-150) are plain reads that feed only the dialogs. `get_all_partners` is modelled only through its two user subqueries (`PartnerManager.UserColumn`).
- PartnerManager.DatabaseManager.CreatePartnerUser: requires an open connection, as do the other `DatabaseManager` methods. Without one the source raises AttributeError outside its except clauses, and that crash is not modelled.
- The `pass` stubs of `db/models.py` other than `update_product` are not modelled, because they have no behaviour.
- `config.py` is modelled only through the `USER_ROLES` lookup.
- There is no concurrency: the shared connector is used by one thread.

## Findings

| source | as written | input that shows it | evidently intended | confidence | as-written member | corrected member |
|---|---|---|---|---|---|---|
| db/database_connector.py:35 | the except clause of `connect` names `mysql_connector_errors.Error`, but that name is bound to `pymysql.cursors`, which defines no `Error`; evaluating it raises AttributeError | `connect()` while the server refuses the connection | the driver's error is caught, `connection` and `cursor` become None and False is returned | not executed | Connector.RefusedConnectionRaisesAsWritten | Connector.ConnectTo |
| db/database_connector.py:75 | the except clause of `execute_query` names the same missing `Error`, so a driver error ends with AttributeError instead of the ROLLBACK and the None/False answer | an INSERT that violates a constraint, after an uncommitted INSERT on the same connection | the transaction is rolled back and None or False is returned | not executed | Connector.DriverErrorRaisesAsWritten | Connector.DriverErrorRollsBack |
| kalash.py:233-268 | `add_partner` inserts the partner without committing and then calls `create_partner_user`. A driver error there rolls back the whole open transaction, the partner row included, yet `add_partner` returns `(True, partner_id)` | a new partner with `create_user` True, where the users INSERT fails with a driver error | the partner stays committed when its login cannot be provisioned, as the returned success says | not executed | PartnerManager.AddPartnerAsWrittenLosesPartner | PartnerManager.AddPartnerCommittingFirstKeepsPartner |
| windows/registration_window.py:333-349 | the minimum length is checked on the unstripped password, but the stripped password is stored | password and confirmation "     a" (five spaces, then "a") | the stored password has at least 6 characters | not executed | Registration.ShortPasswordAccepted | Registration.AcceptedPasswordIsLongEnough |
| windows/warehouse_manager_window.py:69, windows/warehouse_manager_window.py:284-291 | `float(price)` runs in `get_updated_data`, outside the `try` whose `except ValueError` shows "Некорректное значение цены.", so the warning is never shown and the handler raises | OK in the edit dialog with the price field emptied | a price that is not a number shows the warning | not executed | Warehouse.EmptyPriceRaises | Warehouse.CheckedUpdateIsValid |
| windows/warehouse_manager_window.py:238-261 | with no products the table shows the placeholder row "Нет доступных товаров.", which can be selected; `int()` of its text raises | an empty product table, its only row selected, then "edit" | the placeholder is treated as no product: the warning is shown | not executed | Warehouse.PlaceholderRowRaises | Warehouse.EditChecked |
