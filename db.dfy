/**
 The in-memory store of the demo: one table `accounts(id INTEGER PRIMARY KEY, name TEXT,
 balance INTEGER)`, created empty and seeded with two rows when the process starts.

 The table is modelled as the sequence of its rows in rowid order, which is the order in
 which `SELECT * FROM accounts` returns them. The statements the transfer handler sends
 (`BEGIN TRANSACTION`, `UPDATE ... WHERE id = ?`, `COMMIT`, `ROLLBACK`) are methods of the
 `Database` class; a storage error is an input of the statement that suffers it.
 */
module Db {

  datatype Option<T> = None | Some(value: T)

  /** One row of `accounts`. */
  datatype Account = Account(id: int, name: string, balance: int)

  /** A statement sent to the store by a request handler. */
  datatype Statement =
    | BeginStmt
    // `UPDATE accounts SET balance = balance + ? WHERE id = ?` with `delta` and `id` bound; the
    // deduction `balance - ?` bound to `amount` is the case `delta == -amount`. `applied` says
    // whether the store carried it out (true) or reported an error (false).
    | UpdateStmt(id: int, delta: int, applied: bool)
    | CommitStmt
    | RollbackStmt

  /** COMMIT and ROLLBACK are the statements that end a transaction. */
  predicate IsTerminal(s: Statement) {
    s.CommitStmt? || s.RollbackStmt?
  }

  /** How many of the first `n` statements are COMMIT or ROLLBACK. */
  function TerminalsBefore(stmts: seq<Statement>, n: nat): nat
    requires n <= |stmts|
  {
    if n == 0 then 0
    else TerminalsBefore(stmts, n - 1) + (if IsTerminal(stmts[n - 1]) then 1 else 0)
  }

  /**
   A request's statements form one transaction: they open with the only BEGIN, hold exactly
   one COMMIT or ROLLBACK, and that one is the last statement.
   */
  predicate IsOneTransaction(stmts: seq<Statement>) {
    |stmts| >= 2 && stmts[0] == BeginStmt && IsTerminal(stmts[|stmts| - 1]) &&
    (forall k :: 0 < k < |stmts| ==> stmts[k] != BeginStmt) &&
    TerminalsBefore(stmts, |stmts|) == 1
  }

  /** No COMMIT or ROLLBACK among the first `n` statements means a count of zero. */
  lemma {:induction false} NoTerminalsBefore(stmts: seq<Statement>, n: nat)
    requires n <= |stmts|
    requires forall k :: 0 <= k < n ==> !IsTerminal(stmts[k])
    ensures TerminalsBefore(stmts, n) == 0
  {
    if n > 0 {
      NoTerminalsBefore(stmts, n - 1);
    }
  }

  /**
   Statements that open with BEGIN, close with COMMIT or ROLLBACK, and hold none of the
   three in between, are one transaction.
   */
  lemma BracketedIsOneTransaction(stmts: seq<Statement>)
    requires |stmts| >= 2 && stmts[0] == BeginStmt && IsTerminal(stmts[|stmts| - 1])
    requires forall k :: 0 < k < |stmts| - 1 ==> !IsTerminal(stmts[k]) && stmts[k] != BeginStmt
    ensures IsOneTransaction(stmts)
  {
    NoTerminalsBefore(stmts, |stmts| - 1);
  }

  /**
   Each statement sequence a transfer can send is one transaction, whatever became of its
   UPDATEs (`deducted`, `credited`): BEGIN and the deduction, then ROLLBACK; or BEGIN, the
   deduction and the credit, then ROLLBACK or COMMIT.
   */
  lemma TransferStatementsAreOneTransaction(fromId: int, toId: int, amount: int, deducted: bool, credited: bool)
    ensures IsOneTransaction([BeginStmt, UpdateStmt(fromId, -amount, deducted), RollbackStmt])
    ensures IsOneTransaction([BeginStmt, UpdateStmt(fromId, -amount, deducted), UpdateStmt(toId, amount, credited), RollbackStmt])
    ensures IsOneTransaction([BeginStmt, UpdateStmt(fromId, -amount, deducted), UpdateStmt(toId, amount, credited), CommitStmt])
  {
    var deduct, credit := UpdateStmt(fromId, -amount, deducted), UpdateStmt(toId, amount, credited);
    BracketedIsOneTransaction([BeginStmt, deduct, RollbackStmt]);
    BracketedIsOneTransaction([BeginStmt, deduct, credit, RollbackStmt]);
    BracketedIsOneTransaction([BeginStmt, deduct, credit, CommitStmt]);
  }

  /**
   `id` is the rowid, so ids are unique; listing in rowid order makes them strictly
   increasing along the table.
   */
  predicate IdsIncreasing(rows: seq<Account>) {
    forall i, j :: 0 <= i < j < |rows| ==> rows[i].id < rows[j].id
  }

  /** Some row of the table has this id. */
  predicate Has(rows: seq<Account>, id: int) {
    exists i :: 0 <= i < |rows| && rows[i].id == id
  }

  /** The number of rows an `UPDATE ... WHERE id = ?` matches when `id` is bound to the parameter. */
  function CountId(rows: seq<Account>, id: int): nat {
    if rows == [] then 0
    else (if rows[0].id == id then 1 else 0) + CountId(rows[1..], id)
  }

  /** The sum of all balances. */
  function Total(rows: seq<Account>): int {
    if rows == [] then 0 else rows[0].balance + Total(rows[1..])
  }

  /**
   The rowid SQLite gives a row inserted without an explicit id: one more than the
   largest rowid in the table, or 1 when the table is empty.
   */
  function NextRowId(rows: seq<Account>): (r: int)
    ensures rows == [] ==> r == 1
    ensures forall i :: 0 <= i < |rows| ==> rows[i].id < r
    ensures rows != [] ==> exists i :: 0 <= i < |rows| && rows[i].id == r - 1
  {
    if rows == [] then 1
    else if |rows| == 1 then rows[0].id + 1
    else
      var rest := NextRowId(rows[1..]);
      if rows[0].id + 1 >= rest then rows[0].id + 1 else rest
  }

  /**
   `UPDATE accounts SET balance = balance + ? WHERE id = ?` with `delta` and `id` bound
   to the two parameters: every row whose id matches gets `delta` added to its balance; every other row, and every id and name,
   is left as it was. An id that matches no row is not an error.
   */
  function UpdateBalance(rows: seq<Account>, id: int, delta: int): (r: seq<Account>)
    ensures |r| == |rows|
    ensures forall i :: 0 <= i < |rows| ==>
              r[i].id == rows[i].id && r[i].name == rows[i].name &&
              r[i].balance == (if rows[i].id == id then rows[i].balance + delta else rows[i].balance)
  {
    if rows == [] then []
    else
      var head := if rows[0].id == id then rows[0].(balance := rows[0].balance + delta) else rows[0];
      [head] + UpdateBalance(rows[1..], id, delta)
  }

  /**
   The table after the deduction from `fromId` and the credit to `toId` have both been
   applied: each row changes by `amount` times (matches `toId`) minus (matches `fromId`).
   */
  function Transferred(rows: seq<Account>, fromId: int, toId: int, amount: int): (r: seq<Account>)
    ensures |r| == |rows|
    ensures forall i :: 0 <= i < |rows| ==>
              r[i].id == rows[i].id && r[i].name == rows[i].name &&
              r[i].balance == rows[i].balance - (if rows[i].id == fromId then amount else 0)
                                              + (if rows[i].id == toId then amount else 0)
  {
    UpdateBalance(UpdateBalance(rows, fromId, -amount), toId, amount)
  }

  /** An UPDATE changes the total by `delta` once per matched row. */
  lemma {:induction false} TotalAfterUpdate(rows: seq<Account>, id: int, delta: int)
    ensures Total(UpdateBalance(rows, id, delta)) == Total(rows) + delta * CountId(rows, id)
  {
    if rows != [] {
      var r := UpdateBalance(rows, id, delta);
      assert r[1..] == UpdateBalance(rows[1..], id, delta);
      TotalAfterUpdate(rows[1..], id, delta);
    }
  }

  /** An UPDATE never changes which rows a later `WHERE id = ?` matches. */
  lemma {:induction false} CountAfterUpdate(rows: seq<Account>, x: int, delta: int, id: int)
    ensures CountId(UpdateBalance(rows, x, delta), id) == CountId(rows, id)
  {
    if rows != [] {
      var r := UpdateBalance(rows, x, delta);
      assert r[1..] == UpdateBalance(rows[1..], x, delta);
      CountAfterUpdate(rows[1..], x, delta, id);
    }
  }

  /** With unique ids, `WHERE id = ?` matches exactly one row if the id exists and none otherwise. */
  lemma {:induction false} CountIdOfKey(rows: seq<Account>, id: int)
    requires IdsIncreasing(rows)
    ensures CountId(rows, id) == if Has(rows, id) then 1 else 0
  {
    if rows != [] {
      var tail := rows[1..];
      assert IdsIncreasing(tail) by {
        forall i, j | 0 <= i < j < |tail| ensures tail[i].id < tail[j].id {
          assert tail[i] == rows[i + 1] && tail[j] == rows[j + 1];
        }
      }
      CountIdOfKey(tail, id);
      if rows[0].id == id {
        assert !Has(tail, id) by {
          forall i | 0 <= i < |tail| ensures tail[i].id != id {
            assert tail[i] == rows[i + 1];
          }
        }
      } else if Has(rows, id) {
        var i :| 0 <= i < |rows| && rows[i].id == id;
        assert tail[i - 1].id == id;
      } else {
        assert !Has(tail, id) by {
          forall i | 0 <= i < |tail| ensures tail[i].id != id {
            assert tail[i] == rows[i + 1];
          }
        }
      }
    }
  }

  /** The total after a deduction and a credit, in terms of how many rows each matched. */
  lemma TotalAfterTransfer(rows: seq<Account>, fromId: int, toId: int, amount: int)
    ensures Total(Transferred(rows, fromId, toId, amount))
         == Total(rows) - amount * CountId(rows, fromId) + amount * CountId(rows, toId)
  {
    var deducted := UpdateBalance(rows, fromId, -amount);
    var fromCount, toCount := CountId(rows, fromId), CountId(rows, toId);
    TotalAfterUpdate(rows, fromId, -amount);
    assert (-amount) * fromCount == -(amount * fromCount);
    CountAfterUpdate(rows, fromId, -amount, toId);
    TotalAfterUpdate(deducted, toId, amount);
  }

  /** When both accounts exist (the same one or two different ones), the total is conserved. */
  lemma TransferConservesTotal(rows: seq<Account>, fromId: int, toId: int, amount: int)
    requires IdsIncreasing(rows) && Has(rows, fromId) && Has(rows, toId)
    ensures Total(Transferred(rows, fromId, toId, amount)) == Total(rows)
  {
    TotalAfterTransfer(rows, fromId, toId, amount);
    CountIdOfKey(rows, fromId);
    CountIdOfKey(rows, toId);
  }

  /**
   The handler checks neither id: a credit to an id that matches no row succeeds and the
   deducted amount leaves the table.
   */
  lemma CreditToUnknownIdLosesAmount(rows: seq<Account>, fromId: int, toId: int, amount: int)
    requires IdsIncreasing(rows) && Has(rows, fromId) && !Has(rows, toId)
    ensures Total(Transferred(rows, fromId, toId, amount)) == Total(rows) - amount
  {
    TotalAfterTransfer(rows, fromId, toId, amount);
    CountIdOfKey(rows, fromId);
    CountIdOfKey(rows, toId);
  }

  /** Every row whose id is neither `fromId` nor `toId` is the same in `after` as in `before`. */
  predicate OthersUnchanged(before: seq<Account>, after: seq<Account>, fromId: int, toId: int) {
    |after| == |before| &&
    forall i :: 0 <= i < |before| && before[i].id != fromId && before[i].id != toId ==> after[i] == before[i]
  }

  /** The two updates touch only the rows of `fromId` and `toId`. */
  lemma TransferredTouchesOnlyBoth(rows: seq<Account>, fromId: int, toId: int, amount: int)
    ensures OthersUnchanged(rows, Transferred(rows, fromId, toId, amount), fromId, toId)
  {
  }

  /** A transfer from an account to itself deducts and credits the same rows: the table is unchanged. */
  lemma SelfTransferIsIdentity(rows: seq<Account>, id: int, amount: int)
    ensures Transferred(rows, id, id, amount) == rows
  {
  }

  /** Balance updates keep every id where it was, so the rowid order survives them. */
  lemma TransferredKeepsIds(rows: seq<Account>, fromId: int, toId: int, amount: int)
    requires IdsIncreasing(rows)
    ensures IdsIncreasing(Transferred(rows, fromId, toId, amount))
  {
  }

  /**
   The store as the process holds it. `rows` is the table; `snapshot` is the table as it
   was at the open transaction's BEGIN, or None when no transaction is open; `sent`
   records, in order, the statements sent since the latest BEGIN (the BEGIN included);
   `issued` counts every statement sent over the store's life (each INSERT, BEGIN, UPDATE,
   COMMIT and ROLLBACK) and is never reset, so a caller can tell how many statements a
   request sent in all.
   */
  class Database {
    var rows: seq<Account>
    var snapshot: Option<seq<Account>>
    ghost var sent: seq<Statement>
    ghost var issued: nat

    ghost predicate Valid()
      reads this
    {
      IdsIncreasing(rows) && (snapshot.Some? ==> IdsIncreasing(snapshot.value))
    }

    /**
     A fresh `:memory:` store: CREATE TABLE gives an empty table, then the two seed rows
     are inserted, 'A' with 5000 first and 'B' with 2000 second.
     */
    constructor ()
      ensures Valid() && snapshot == None && sent == []
      ensures issued == 2  // the two INSERTs
      ensures rows == [Account(1, "A", 5000), Account(2, "B", 2000)]
      ensures Total(rows) == 7000
    {
      rows := [];
      snapshot := None;
      sent := [];
      issued := 0;
      new;
      Insert("A", 5000);
      Insert("B", 2000);
      assert rows[1..] == [Account(2, "B", 2000)];
      assert Total([Account(2, "B", 2000)]) == 2000 + Total([]);
    }

    /** `INSERT INTO accounts (name, balance) VALUES (name, balance)`: appends a row with the next rowid. */
    method Insert(name: string, balance: int)
      requires Valid()
      modifies this
      ensures Valid()
      ensures rows == old(rows) + [Account(NextRowId(old(rows)), name, balance)]
      ensures snapshot == old(snapshot) && sent == old(sent) && issued == old(issued) + 1
    {
      rows := rows + [Account(NextRowId(rows), name, balance)];
      issued := issued + 1;
    }

    /** `BEGIN TRANSACTION`: remembers the table so that ROLLBACK can restore it. */
    method Begin()
      requires Valid() && snapshot == None
      modifies this
      ensures Valid()
      ensures rows == old(rows) && snapshot == Some(old(rows))
      ensures sent == [BeginStmt] && issued == old(issued) + 1
    {
      snapshot := Some(rows);
      sent := [BeginStmt];
      issued := issued + 1;
    }

    /**
     `UPDATE accounts SET balance = balance + ? WHERE id = ?`, bound to `delta` and `id`.
     When the store reports an error (`fails`), `ok` is false and the statement has no effect.
     */
    method Update(id: int, delta: int, fails: bool) returns (ok: bool)
      requires Valid()
      modifies this
      ensures Valid()
      ensures ok == !fails
      ensures rows == if fails then old(rows) else UpdateBalance(old(rows), id, delta)
      ensures snapshot == old(snapshot)
      ensures sent == old(sent) + [UpdateStmt(id, delta, !fails)] && issued == old(issued) + 1
    {
      if !fails {
        rows := UpdateBalance(rows, id, delta);
      }
      ok := !fails;
      sent := sent + [UpdateStmt(id, delta, !fails)];
      issued := issued + 1;
    }

    /** `COMMIT`: keeps the table as it is and closes the transaction. */
    method Commit()
      requires Valid() && snapshot.Some?
      modifies this
      ensures Valid()
      ensures rows == old(rows) && snapshot == None
      ensures sent == old(sent) + [CommitStmt] && issued == old(issued) + 1
    {
      snapshot := None;
      sent := sent + [CommitStmt];
      issued := issued + 1;
    }

    /** `ROLLBACK`: puts back the table as it was at BEGIN and closes the transaction. */
    method Rollback()
      requires Valid() && snapshot.Some?
      modifies this
      ensures Valid()
      ensures rows == old(snapshot).value && snapshot == None
      ensures sent == old(sent) + [RollbackStmt] && issued == old(issued) + 1
    {
      rows := snapshot.value;
      snapshot := None;
      sent := sent + [RollbackStmt];
      issued := issued + 1;
    }
  }
}
