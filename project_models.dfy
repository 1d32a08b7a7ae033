/**
 * `Project/db/models.py`: a second copy of the supplier functions of `db/models.py`, over a
 * connector of the same shape. Its code is statement for statement the same, so each method
 * here is proved against the same specification function.
 */
module ProjectModels {
  import opened Wrappers
  import opened Sql
  import opened Connector
  import opened Models

  method GetAllSuppliers(db: DatabaseConnector, fault: bool) returns (suppliers: seq<Row>)
    requires db.Valid()
    modifies db
    ensures db.Valid()
    ensures (db.State(), suppliers) == SupplierList(old(db.State()), fault)
  {
    var result := db.ExecuteQuery(SelectSuppliers, true, false, fault);
    if Truthy(result) {
      return result.rows;
    }
    return [];
  }

  method AddNewSupplier(db: DatabaseConnector, x: SupplierData, fault: bool) returns (ok: bool)
    requires db.Valid()
    modifies db
    ensures db.Valid()
    ensures (db.State(), ok) == SupplierAdded(old(db.State()), x, fault)
  {
    var result := db.ExecuteQuery(InsertSupplierRow(SupplierOf(x)), false, true, fault);
    return result != Flag(false);
  }

  method EditSupplierInfo(db: DatabaseConnector, id: int, x: SupplierData, fault: bool)
    returns (ok: bool)
    requires db.Valid()
    modifies db
    ensures db.Valid()
    ensures (db.State(), ok) == SupplierEdited(old(db.State()), id, x, fault)
  {
    var result := db.ExecuteQuery(UpdateSupplierRow(id, SupplierOf(x)), false, true, fault);
    return result != Flag(false);
  }

  method DeleteSupplier(db: DatabaseConnector, id: int, fault: bool) returns (ok: bool)
    requires db.Valid()
    modifies db
    ensures db.Valid()
    ensures (db.State(), ok) == SupplierDeleted(old(db.State()), id, fault)
  {
    var result := db.ExecuteQuery(DeleteSupplierRow(id), false, true, fault);
    return result != Flag(false);
  }

  method GetSupplierById(db: DatabaseConnector, id: int, fault: bool) returns (supplier: Option<Row>)
    requires db.Valid()
    modifies db
    ensures db.Valid()
    ensures (db.State(), supplier) == SupplierById(old(db.State()), id, fault)
  {
    var result := db.ExecuteQuery(SelectSupplierById(id), true, false, fault);
    return FirstRow(result);
  }
}
