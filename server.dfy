/**
 The two request handlers of the demo server: `POST /transfer`, which moves an amount from
 one account to another inside one transaction, and `GET /accounts`, which lists the table.
 An HTTP reply is modelled by its status code and body text only.
 */
module Server {
  import opened Db

  /** The largest amount one transfer may move; only amounts strictly above it are refused. */
  const TransferLimit: int := 3000

  /** The reply sent for a request: status code and body text. */
  datatype Response = Response(status: int, body: string)

  /** A transfer reaches COMMIT exactly when neither UPDATE errors and the amount is within the limit. */
  predicate Commits(amount: int, deductFails: bool, creditFails: bool) {
    !deductFails && amount <= TransferLimit && !creditFails
  }

  /**
   `POST /transfer {fromId, toId, amount}`. BEGIN; deduct `amount` from `fromId`; refuse
   amounts above the limit; credit `amount` to `toId`; COMMIT. Every failure issues ROLLBACK
   and replies at once. `deductFails` and `creditFails` say whether the store reports an
   error for the deduction and for the credit. Neither id nor the sign of `amount` is checked.
   */
  method Transfer(db: Database, fromId: int, toId: int, amount: int, deductFails: bool, creditFails: bool)
    returns (res: Response)
    requires db.Valid() && db.snapshot == None
    modifies db
    ensures db.Valid() && db.snapshot == None
    // the four outcomes, with the statements sent for each
    // (the flag of each UPDATE says whether the store applied it)
    ensures deductFails ==>
              res == Response(500, "Error deducting balance") && db.rows == old(db.rows) &&
              db.sent == [BeginStmt, UpdateStmt(fromId, -amount, false), RollbackStmt]
    ensures !deductFails && amount > TransferLimit ==>
              res == Response(400, "Transfer limit exceeded, rolled back") && db.rows == old(db.rows) &&
              db.sent == [BeginStmt, UpdateStmt(fromId, -amount, true), RollbackStmt]
    ensures !deductFails && amount <= TransferLimit && creditFails ==>
              res == Response(500, "Error adding balance") && db.rows == old(db.rows) &&
              db.sent == [BeginStmt, UpdateStmt(fromId, -amount, true), UpdateStmt(toId, amount, false), RollbackStmt]
    ensures Commits(amount, deductFails, creditFails) ==>
              res == Response(200, "Transfer successful") &&
              db.rows == Transferred(old(db.rows), fromId, toId, amount) &&
              db.sent == [BeginStmt, UpdateStmt(fromId, -amount, true), UpdateStmt(toId, amount, true), CommitStmt]
    // what holds across all of them: the statements listed above are all this call sent,
    // one BEGIN and one COMMIT or ROLLBACK among them
    ensures IsOneTransaction(db.sent) && db.issued == old(db.issued) + |db.sent|
    ensures res.status == 200 <==> Commits(amount, deductFails, creditFails)
    ensures res.status != 200 ==> db.rows == old(db.rows)
    ensures OthersUnchanged(old(db.rows), db.rows, fromId, toId)
    ensures Has(old(db.rows), fromId) && Has(old(db.rows), toId) ==> Total(db.rows) == Total(old(db.rows))
    ensures fromId == toId ==> db.rows == old(db.rows)
  {
    ghost var before := db.rows;
    ghost var deduct, credit := UpdateStmt(fromId, -amount, !deductFails), UpdateStmt(toId, amount, !creditFails);
    TransferStatementsAreOneTransaction(fromId, toId, amount, !deductFails, !creditFails);
    db.Begin();
    var deducted := db.Update(fromId, -amount, deductFails);
    assert db.sent == [BeginStmt, deduct];
    if !deducted {
      db.Rollback();
      assert db.sent == [BeginStmt, deduct, RollbackStmt];
      return Response(500, "Error deducting balance");
    }
    if amount > TransferLimit {
      db.Rollback();
      assert db.sent == [BeginStmt, deduct, RollbackStmt];
      return Response(400, "Transfer limit exceeded, rolled back");
    }
    var credited := db.Update(toId, amount, creditFails);
    assert db.sent == [BeginStmt, deduct, credit];
    if !credited {
      db.Rollback();
      assert db.sent == [BeginStmt, deduct, credit, RollbackStmt];
      return Response(500, "Error adding balance");
    }
    db.Commit();
    assert db.sent == [BeginStmt, deduct, credit, CommitStmt];
    assert db.rows == Transferred(before, fromId, toId, amount);
    if Has(before, fromId) && Has(before, toId) {
      TransferConservesTotal(before, fromId, toId, amount);
    }
    TransferredKeepsIds(before, fromId, toId, amount);
    TransferredTouchesOnlyBoth(before, fromId, toId, amount);
    if fromId == toId {
      SelfTransferIsIdentity(before, fromId, amount);
    }
    res := Response(200, "Transfer successful");
  }

  /**
   `GET /accounts`: every row of the table, in rowid order, which is the order the rows
   were inserted in; so the ids come out strictly increasing. Being a function of the
   store, it changes nothing, and two calls with no transfer between them give the same
   rows in the same order.
   */
  function ListAccounts(db: Database): (r: seq<Account>)
    reads db
    requires db.Valid()
    ensures IdsIncreasing(r)
  {
    db.rows
  }

  /** From the seed state, 1000 from A to B commits; listing twice gives A=4000, B=3000 both times. */
  method TransferWithinLimitScenario() returns (res: Response, first: seq<Account>, second: seq<Account>)
    ensures res == Response(200, "Transfer successful")
    ensures first == [Account(1, "A", 4000), Account(2, "B", 3000)]
    ensures second == first
  {
    var db := new Database();
    res := Transfer(db, 1, 2, 1000, false, false);
    first := ListAccounts(db);
    assert first[0] == Account(1, "A", 4000) && first[1] == Account(2, "B", 3000);
    second := ListAccounts(db);
  }

  /** From the seed state, 4000 from A to B is refused with 400 and the table keeps A=5000, B=2000. */
  method OverLimitScenario() returns (res: Response, rows: seq<Account>)
    ensures res == Response(400, "Transfer limit exceeded, rolled back")
    ensures rows == [Account(1, "A", 5000), Account(2, "B", 2000)]
  {
    var db := new Database();
    res := Transfer(db, 1, 2, 4000, false, false);
    rows := ListAccounts(db);
  }

  /**
   Exactly 3000 passes the limit check, even when it takes B below zero; 3001 is refused
   and leaves the table as it was.
   */
  method LimitBoundaryScenario() returns (atLimit: Response, overLimit: Response, rows: seq<Account>)
    ensures atLimit == Response(200, "Transfer successful")
    ensures overLimit == Response(400, "Transfer limit exceeded, rolled back")
    ensures rows == [Account(1, "A", 8000), Account(2, "B", -1000)]
  {
    var db := new Database();
    atLimit := Transfer(db, 2, 1, 3000, false, false);
    assert db.rows[0] == Account(1, "A", 8000) && db.rows[1] == Account(2, "B", -1000);
    overLimit := Transfer(db, 1, 2, 3001, false, false);
    rows := ListAccounts(db);
  }

  /** A storage error on either UPDATE is answered with 500 and leaves the seed table in place. */
  method StorageErrorScenario() returns (deductError: Response, creditError: Response, rows: seq<Account>)
    ensures deductError == Response(500, "Error deducting balance")
    ensures creditError == Response(500, "Error adding balance")
    ensures rows == [Account(1, "A", 5000), Account(2, "B", 2000)]
  {
    var db := new Database();
    deductError := Transfer(db, 1, 2, 1000, true, false);
    creditError := Transfer(db, 1, 2, 1000, false, true);
    rows := ListAccounts(db);
  }

  /** A credit to an id with no row still commits: A loses 1000 and the total drops from 7000 to 6000. */
  method UnknownCreditTargetScenario() returns (res: Response, rows: seq<Account>)
    ensures res == Response(200, "Transfer successful")
    ensures rows == [Account(1, "A", 4000), Account(2, "B", 2000)]
    ensures Total(rows) == 6000
  {
    var db := new Database();
    res := Transfer(db, 1, 3, 1000, false, false);
    rows := ListAccounts(db);
    assert rows[0] == Account(1, "A", 4000) && rows[1] == Account(2, "B", 2000);
    assert rows[1..] == [Account(2, "B", 2000)];
    assert Total([Account(2, "B", 2000)]) == 2000 + Total([]);
  }
}
