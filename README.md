# ACID transfer demo, modelled in Dafny

The demo server keeps one in-memory SQLite table, `accounts(id INTEGER PRIMARY KEY, name TEXT,
balance INTEGER)`. At start-up it holds two rows, A with 5000 and B with 2000. `POST /transfer`
moves an amount between two accounts. It sends BEGIN TRANSACTION, deducts the amount from
`fromId`, refuses amounts above 3000, credits `toId` and sends COMMIT. Every failure sends
ROLLBACK and replies at once. `GET /accounts` lists the table.

Layout:

- `db.dfy`, module `Db`: the store.
  - `Account` rows and the table as a sequence of rows in rowid order.
  - The SQL `UPDATE ... WHERE id = ?` as the function `UpdateBalance`. A row that does not
    match is left as it was, and an id that matches nothing is not an error.
  - The class `Database`. Its `rows` field is the table. Its `snapshot` field is the table as
    it was at BEGIN, or `None` outside a transaction. Its ghost `sent` field records, in order,
    the statements sent since the latest BEGIN; each UPDATE in it is marked as applied or as
    failed. Its ghost `issued` field counts every statement ever sent (INSERT, BEGIN, UPDATE,
    COMMIT and ROLLBACK) and is never reset; the seeded store starts at 2.
  - The constructor is the CREATE TABLE and the two INSERTs that seed the store.
  - The lemmas about totals: conservation, and money lost when the credit matches no row.
- `server.dfy`, module `Server`: the two handlers.
  - `Transfer` is a method that takes the database and changes it. Its contract gives, for
    each of the four outcomes, the reply, the new table and the exact statements sent.
    Because `issued`, which counts INSERTs too, grows by exactly the length of that list,
    the list is every statement the call sent.
  - `ListAccounts` is a function of the state.
  - Five scenario methods call the handlers from the seed state.

Storage errors are inputs: `deductFails` and `creditFails` say whether the store reports an
error for the deduction and for the credit. A failing UPDATE has no effect on the table.

The table is created and seeded on every start, on a fresh `:memory:` database, so the
seed state is always the starting state. The constructor does the same: CREATE TABLE, then
both INSERTs.

`amount` is not checked, in the code or in the model. A negative amount passes the limit
check and moves money the other way.

Ids come from SQLite's rowid rule: a row inserted without an id gets one more than the
largest id in the table, or 1 in an empty table (`NextRowId`). So the seed rows are
`Account(1, "A", 5000)` and `Account(2, "B", 2000)`.

`Transfer` requires that no transaction is open. The constructor starts with none open, and
every call to `Transfer` closes the transaction it opens, so this holds between requests.

## Model

| member | source | states |
|---|---|---|
| Db.NextRowId | ACID/acid_demo/db.js:6-8 | the id given to an inserted row is 1 in an empty table, and otherwise exactly one more than the largest id present |
| Db.UpdateBalance | ACID/acid_demo/server.js:14 | `UPDATE ... SET balance = balance + delta WHERE id = ?` keeps the length, every id and every name; it adds `delta` to matching rows only |
| Db.Transferred | ACID/acid_demo/server.js:14-26 | after the deduction and the credit, each row's balance has lost `amount` if it matches `fromId` and gained `amount` if it matches `toId`; ids, names and order are kept |
| Db.TotalAfterUpdate | ACID/acid_demo/server.js:14 | an UPDATE changes the sum of balances by `delta` once for every row it matches |
| Db.CountAfterUpdate | ACID/acid_demo/server.js:26 | the deduction does not change how many rows the credit's `WHERE id = ?` matches |
| Db.CountIdOfKey | ACID/acid_demo/db.js:6 | with unique ids (the primary key), `WHERE id = ?` matches one row when the id exists and none otherwise |
| Db.TotalAfterTransfer | ACID/acid_demo/server.js:14-26 | the total after both updates is the old total minus `amount` per row matching `fromId`, plus `amount` per row matching `toId` |
| Db.TransferConservesTotal | ACID/acid_demo/server.js:14-26 | when both ids exist, whether equal or distinct, a committed transfer leaves the sum of all balances unchanged |
| Db.CreditToUnknownIdLosesAmount | ACID/acid_demo/server.js:26-33 | when `fromId` exists and `toId` matches no row, the transfer still commits and the total falls by exactly `amount` |
| Db.TransferredTouchesOnlyBoth | ACID/acid_demo/server.js:14-26 | the two updates leave every row whose id is neither `fromId` nor `toId` exactly as it was |
| Db.SelfTransferIsIdentity | ACID/acid_demo/server.js:14-26 | when `fromId` equals `toId`, the deduction and the credit cancel and the table is unchanged |
| Db.BracketedIsOneTransaction | ACID/acid_demo/server.js:12-34 | statements that open with BEGIN, close with COMMIT or ROLLBACK and hold none of these in between contain one BEGIN, first, and exactly one COMMIT or ROLLBACK, at the end |
| Db.TransferStatementsAreOneTransaction | ACID/acid_demo/server.js:12-34 | each of the three statement sequences a transfer can send is one transaction: one BEGIN first, one COMMIT or ROLLBACK last, none between |
| Db.TransferredKeepsIds | ACID/acid_demo/server.js:14-26 | balance updates keep the ids strictly increasing, so they stay unique and the listing order does not change |
| Db.Database.constructor | ACID/acid_demo/db.js:2-9 | a fresh store holds exactly the two rows (1, A, 5000) and (2, B, 2000), in that order; its total is 7000; no transaction is open |
| Db.Database.Insert | ACID/acid_demo/db.js:7-8 | an INSERT appends one row with the next rowid, keeps ids strictly increasing, and is counted as one statement sent |
| Db.Database.Begin | ACID/acid_demo/server.js:12 | BEGIN TRANSACTION leaves the table as it is and records it as the snapshot |
| Db.Database.Update | ACID/acid_demo/server.js:14-15 | an UPDATE that errors reports failure and leaves the table as it was; otherwise it applies `UpdateBalance`; the logged statement records which of the two happened |
| Db.Database.Commit | ACID/acid_demo/server.js:32 | COMMIT keeps the table and closes the transaction |
| Db.Database.Rollback | ACID/acid_demo/server.js:16 | ROLLBACK restores the table to its state at BEGIN and closes the transaction |
| Server.Transfer | ACID/acid_demo/server.js:8-37 | the four outcomes. A deduction error gives 500 "Error deducting balance" with no credit sent. An amount above 3000 gives 400 "Transfer limit exceeded, rolled back", and the log shows that the deduction was applied before the ROLLBACK. A credit error gives 500 "Error adding balance", after an applied deduction and a failed credit. Otherwise the reply is 200 "Transfer successful" and the table is `Transferred`. Every failure leaves the table unchanged. Each outcome names the exact statements sent, and the statement counter grows by exactly their number, so they are all the call sent: one BEGIN first, a single COMMIT or ROLLBACK at the end, none between. Each call returns exactly one reply. Rows matching neither id are untouched. When both ids exist, the total is conserved. A self-transfer changes nothing |
| Server.ListAccounts | ACID/acid_demo/server.js:39-43 | the rows come out with strictly increasing ids, i.e. in rowid (insertion) order; being a function of the store it changes nothing, so two calls with no transfer between them agree |
| Server.TransferWithinLimitScenario | ACID/acid_demo/server.js:14-33 | from the seed, 1000 from A to B gives 200; listing twice gives A=4000, B=3000 both times, A first |
| Server.OverLimitScenario | ACID/acid_demo/server.js:21-23 | from the seed, 4000 from A to B gives 400, and the table is still A=5000, B=2000 |
| Server.LimitBoundaryScenario | ACID/acid_demo/server.js:21 | exactly 3000 is not refused, because the comparison is strict, and it may drive B to -1000 since no constraint forbids negative balances; 3001 is refused and changes nothing |
| Server.StorageErrorScenario | ACID/acid_demo/server.js:15-17 | an error on the deduction or on the credit gives the matching 500 reply and leaves the seed table in place |
| Server.UnknownCreditTargetScenario | ACID/acid_demo/server.js:26-33 | a credit to an id with no row commits; A loses 1000 and the total falls from 7000 to 6000 |

## Left out

- HTTP: Express routing, JSON body parsing and `app.listen` are not modelled. A reply is only
  its status code and body text. `res.send` without a status is taken as 200.
- The sqlite3 driver, SQL text and the scheduling of `db.serialize` callbacks are not
  modelled. Statements are methods on the table, and storage errors are boolean inputs.
- Concurrent or interleaved requests are not modelled. Each transfer runs to its end before
  the next request.
- The ROLLBACK is not awaited before the reply is sent. The model assumes it completes.
- Errors of BEGIN, COMMIT, ROLLBACK, CREATE TABLE and the INSERTs are not modelled. The code
  does not handle them: such an error is raised as an unhandled error event and lies outside
  the model.
- An error from `SELECT * FROM accounts` is not modelled. The handler ignores it.
- JavaScript dynamic typing of `fromId`, `toId` and `amount` (strings, fractions, NaN) is
  not modelled. All three are integers.
- Balances are unbounded integers. SQLite's 64-bit integer range is not modelled, nor its
  overflow to floating point.
