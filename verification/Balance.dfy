/** The trial balance: rows grouped by the database, folded by account, against the plain
    signed sum of the ledger, which is zero in every reachable state. */
module Balance {
  import opened Domain
  import opened Tables
  import opened Pipeline
  import opened Integrity

  datatype GroupRow = GroupRow(account: Account, direction: Direction, total: int)

  datatype AccountBalance = AccountBalance(account: Account, totalDebit: int, totalCredit: int, net: int)

  // ---------- plain sums ----------

  function SumOf(ledger: seq<Entry>, account: Account, direction: Direction): int {
    if ledger == [] then 0
    else
      var x := ledger[|ledger| - 1];
      SumOf(ledger[..|ledger| - 1], account, direction)
      + if x.account == account && x.direction == direction then x.amount else 0
  }

  /** What a balance can be restricted to. */
  datatype Scope =
    | Everything
    | OfEvent(event: nat)
    | OfOrder(order: nat)
    | OfCurrency(currency: string)
    | OfSettlement(settled: bool)

  predicate InScope(x: Entry, scope: Scope) {
    match scope
    case Everything => true
    case OfEvent(e) => x.event == e
    case OfOrder(o) => x.order == o
    case OfCurrency(c) => x.currency == c
    case OfSettlement(settled) => x.settlement.Settled? == settled
  }

  function Signed(x: Entry): int { if x.direction.Debit? then x.amount else -x.amount }

  function Net(ledger: seq<Entry>, scope: Scope): int {
    if ledger == [] then 0
    else
      var x := ledger[|ledger| - 1];
      Net(ledger[..|ledger| - 1], scope) + if InScope(x, scope) then Signed(x) else 0
  }

  lemma {:induction false} NetIsDebitsLessCredits(ledger: seq<Entry>)
    ensures Net(ledger, Everything)
            == SumOf(ledger, GatewayReceivable, Debit) + SumOf(ledger, MerchantPayable, Debit)
               - SumOf(ledger, GatewayReceivable, Credit) - SumOf(ledger, MerchantPayable, Credit)
  {
    if ledger != [] { NetIsDebitsLessCredits(ledger[..|ledger| - 1]); }
  }

  // ---------- grouping ----------

  /** What GROUP BY account, direction returns: one row for each pair that occurs, with the
      sum of its amounts, in any order. */
  ghost predicate IsGrouping(ledger: seq<Entry>, rows: seq<GroupRow>) {
    && (forall i, j | 0 <= i < j < |rows| ::
          rows[i].account != rows[j].account || rows[i].direction != rows[j].direction)
    && (forall i | 0 <= i < |rows| ::
          && rows[i].total == SumOf(ledger, rows[i].account, rows[i].direction)
          && Occurs(ledger, rows[i].account, rows[i].direction))
    && (forall a, d | Occurs(ledger, a, d) ::
          exists i :: 0 <= i < |rows| && rows[i].account == a && rows[i].direction == d)
  }

  ghost predicate Occurs(ledger: seq<Entry>, account: Account, direction: Direction) {
    exists i :: 0 <= i < |ledger| && ledger[i].account == account && ledger[i].direction == direction
  }

  function RowSum(rows: seq<GroupRow>, account: Account, direction: Direction): int {
    if rows == [] then 0
    else
      var r := rows[|rows| - 1];
      RowSum(rows[..|rows| - 1], account, direction)
      + if r.account == account && r.direction == direction then r.total else 0
  }

  lemma {:induction false} AbsentSum(ledger: seq<Entry>, account: Account, direction: Direction)
    requires !Occurs(ledger, account, direction)
    ensures SumOf(ledger, account, direction) == 0
  {
    if ledger != [] {
      assert ledger[|ledger| - 1].account != account || ledger[|ledger| - 1].direction != direction;
      forall i | 0 <= i < |ledger| - 1 ensures ledger[i].account != account || ledger[i].direction != direction {}
      AbsentSum(ledger[..|ledger| - 1], account, direction);
    }
  }

  lemma {:induction false} RowSumOfOne(rows: seq<GroupRow>, account: Account, direction: Direction, i: nat)
    requires i < |rows| && rows[i].account == account && rows[i].direction == direction
    requires forall j | 0 <= j < |rows| && j != i :: rows[j].account != account || rows[j].direction != direction
    ensures RowSum(rows, account, direction) == rows[i].total
  {
    if i == |rows| - 1 {
      RowSumOfNone(rows[..i], account, direction);
    } else {
      RowSumOfOne(rows[..|rows| - 1], account, direction, i);
    }
  }

  lemma {:induction false} RowSumOfNone(rows: seq<GroupRow>, account: Account, direction: Direction)
    requires forall j | 0 <= j < |rows| :: rows[j].account != account || rows[j].direction != direction
    ensures RowSum(rows, account, direction) == 0
  {
    if rows != [] { RowSumOfNone(rows[..|rows| - 1], account, direction); }
  }

  lemma GroupedSum(ledger: seq<Entry>, rows: seq<GroupRow>, account: Account, direction: Direction)
    requires IsGrouping(ledger, rows)
    ensures RowSum(rows, account, direction) == SumOf(ledger, account, direction)
  {
    if i :| 0 <= i < |rows| && rows[i].account == account && rows[i].direction == direction {
      RowSumOfOne(rows, account, direction, i);
    } else {
      RowSumOfNone(rows, account, direction);
      assert !Occurs(ledger, account, direction);
      AbsentSum(ledger, account, direction);
    }
  }

  // ---------- the balance service ----------

  /** The folded balance of one account. */
  function BalanceOf(rows: seq<GroupRow>, account: Account): AccountBalance {
    var debit := RowSum(rows, account, Debit);
    var credit := RowSum(rows, account, Credit);
    AccountBalance(account, debit, credit, debit - credit)
  }

  function NetOf(accounts: seq<AccountBalance>): int {
    if accounts == [] then 0 else NetOf(accounts[..|accounts| - 1]) + accounts[|accounts| - 1].net
  }

  /** What one more row adds to an account. */
  lemma RowAdds(rows: seq<GroupRow>, k: nat, account: Account)
    requires k < |rows|
    ensures var b := BalanceOf(rows[..k], account); var r := rows[k];
            BalanceOf(rows[..k + 1], account)
            == if r.account != account then b
               else if r.direction.Debit? then AccountBalance(account, b.totalDebit + r.total, b.totalCredit,
                 b.net + r.total)
               else AccountBalance(account, b.totalDebit, b.totalCredit + r.total, b.net - r.total)
  {
    assert rows[..k + 1][..k] == rows[..k];
  }

  lemma NoRowsYet(rows: seq<GroupRow>, k: nat, account: Account)
    requires k <= |rows| && account !in AccountsOf(rows[..k])
    ensures BalanceOf(rows[..k], account) == AccountBalance(account, 0, 0, 0)
  {
    HasRow(rows[..k], account);
    RowSumOfNone(rows[..k], account, Debit);
    RowSumOfNone(rows[..k], account, Credit);
  }

  function AccountsOf(rows: seq<GroupRow>): set<Account> {
    if rows == [] then {} else AccountsOf(rows[..|rows| - 1]) + {rows[|rows| - 1].account}
  }

  lemma {:induction false} HasRow(rows: seq<GroupRow>, account: Account)
    ensures account in AccountsOf(rows) <==> exists i :: 0 <= i < |rows| && rows[i].account == account
  {
    if rows != [] {
      var n := |rows| - 1;
      HasRow(rows[..n], account);
      assert forall i | 0 <= i < n :: rows[..n][i] == rows[i];
    }
  }

  lemma AccountsGrow(rows: seq<GroupRow>, k: nat)
    requires k < |rows|
    ensures AccountsOf(rows[..k + 1]) == AccountsOf(rows[..k]) + {rows[k].account}
  {
    assert rows[..k + 1][..k] == rows[..k];
  }

  /** The accounts that have a row, each with its balance. */
  ghost predicate FoldedTo(byAccount: map<Account, AccountBalance>, rows: seq<GroupRow>) {
    byAccount.Keys == AccountsOf(rows) && forall a | a in byAccount :: byAccount[a] == BalanceOf(rows, a)
  }

  lemma FoldedOn(rows: seq<GroupRow>, k: nat, byAccount: map<Account, AccountBalance>)
    requires k < |rows| && FoldedTo(byAccount, rows[..k])
    ensures var x := rows[k].account; FoldedTo(byAccount[x := BalanceOf(rows[..k + 1], x)], rows[..k + 1])
  {
    AccountsGrow(rows, k);
    forall a {
      RowAdds(rows, k, a);
    }
  }

  predicate Distinct(order: seq<Account>) {
    forall i, j | 0 <= i < j < |order| :: order[i] != order[j]
  }

  /** The balance service: folds the grouped rows into a map that remembers the order of its
      keys, then sums the accounts.  For any ledger and any order of its grouped rows, each
      account that occurs is listed once with the plain sums of its debits and credits, and
      the overall net is the plain signed sum of the whole ledger. */
  method GetBalance(rows: seq<GroupRow>, ghost ledger: seq<Entry>)
    returns (accounts: seq<AccountBalance>, overallNet: int)
    requires IsGrouping(ledger, rows)
    ensures forall i, j | 0 <= i < j < |accounts| :: accounts[i].account != accounts[j].account
    ensures forall i | 0 <= i < |accounts| ::
              var a := accounts[i];
              && a.totalDebit == SumOf(ledger, a.account, Debit) && a.totalCredit == SumOf(ledger, a.account, Credit)
              && a.net == a.totalDebit - a.totalCredit
    ensures forall a, d | Occurs(ledger, a, d) :: exists i :: 0 <= i < |accounts| && accounts[i].account == a
    ensures forall i | 0 <= i < |accounts| ::
              Occurs(ledger, accounts[i].account, Debit) || Occurs(ledger, accounts[i].account, Credit)
    ensures overallNet == Net(ledger, Everything)
  {
    var byAccount, order := Fold(rows);
    accounts, overallNet := SumUp(byAccount, order);
    Listed(ledger, rows, order, accounts);
  }

  /** The grouped rows folded into a map, with its keys in the order of their first rows. */
  method Fold(rows: seq<GroupRow>) returns (byAccount: map<Account, AccountBalance>, order: seq<Account>)
    ensures Distinct(order) && (forall a :: a in order <==> a in byAccount) && FoldedTo(byAccount, rows)
  {
    byAccount, order := map[], [];
    for k := 0 to |rows|
      invariant Distinct(order) && (forall a :: a in order <==> a in byAccount)
      invariant FoldedTo(byAccount, rows[..k])
    {
      var row := rows[k];
      RowAdds(rows, k, row.account);
      if row.account !in byAccount {
        NoRowsYet(rows, k, row.account);
      }
      FoldedOn(rows, k, byAccount);
      var entry := if row.account in byAccount then byAccount[row.account] else AccountBalance(row.account, 0, 0, 0);
      if row.account !in byAccount {
        order := order + [row.account];
      }
      if row.direction == Debit {
        entry := entry.(totalDebit := entry.totalDebit + row.total);
      } else {
        entry := entry.(totalCredit := entry.totalCredit + row.total);
      }
      entry := entry.(net := entry.totalDebit - entry.totalCredit);
      byAccount := byAccount[row.account := entry];
    }
    assert rows[..|rows|] == rows;
  }

  /** The accounts in order, and the sum of their nets. */
  method SumUp(byAccount: map<Account, AccountBalance>, order: seq<Account>)
    returns (accounts: seq<AccountBalance>, overallNet: int)
    requires forall a | a in order :: a in byAccount
    ensures |accounts| == |order| && forall i | 0 <= i < |order| :: accounts[i] == byAccount[order[i]]
    ensures overallNet == NetOf(accounts)
  {
    accounts := [];
    overallNet := 0;
    for k := 0 to |order|
      invariant |accounts| == k && overallNet == NetOf(accounts)
      invariant forall i | 0 <= i < k :: accounts[i] == byAccount[order[i]]
    {
      accounts := accounts + [byAccount[order[k]]];
      assert accounts[..k] + [accounts[k]] == accounts;
      overallNet := overallNet + byAccount[order[k]].net;
    }
  }

  lemma RowOccurs(ledger: seq<Entry>, rows: seq<GroupRow>, account: Account)
    requires IsGrouping(ledger, rows) && account in AccountsOf(rows)
    ensures Occurs(ledger, account, Debit) || Occurs(ledger, account, Credit)
  {
    HasRow(rows, account);
    var i :| 0 <= i < |rows| && rows[i].account == account;
    assert Occurs(ledger, rows[i].account, rows[i].direction);
  }

  /** Listing every account with a row, once, loses nothing of the sum. */
  lemma Listed(ledger: seq<Entry>, rows: seq<GroupRow>, order: seq<Account>, accounts: seq<AccountBalance>)
    requires IsGrouping(ledger, rows) && Distinct(order) && |accounts| == |order|
    requires forall i | 0 <= i < |order| :: accounts[i] == BalanceOf(rows, order[i])
    requires forall a :: a in order <==> a in AccountsOf(rows)
    ensures forall i | 0 <= i < |accounts| ::
              Occurs(ledger, accounts[i].account, Debit) || Occurs(ledger, accounts[i].account, Credit)
    ensures forall i | 0 <= i < |accounts| ::
              var a := accounts[i];
              a.totalDebit == SumOf(ledger, a.account, Debit) && a.totalCredit == SumOf(ledger, a.account, Credit)
    ensures forall a, d | Occurs(ledger, a, d) :: exists i :: 0 <= i < |accounts| && accounts[i].account == a
    ensures NetOf(accounts) == Net(ledger, Everything)
  {
    forall a, d ensures RowSum(rows, a, d) == SumOf(ledger, a, d) {
      GroupedSum(ledger, rows, a, d);
    }
    forall a, d | Occurs(ledger, a, d) ensures exists i :: 0 <= i < |accounts| && accounts[i].account == a {
      var r :| 0 <= r < |rows| && rows[r].account == a && rows[r].direction == d;
      HasRow(rows, a);
      assert a in order;
      var i :| 0 <= i < |order| && order[i] == a;
      assert accounts[i].account == a;
    }
    forall i | 0 <= i < |accounts|
      ensures Occurs(ledger, accounts[i].account, Debit) || Occurs(ledger, accounts[i].account, Credit)
    {
      assert order[i] in order;
      RowOccurs(ledger, rows, order[i]);
    }
    forall a | a !in order ensures SumOf(ledger, a, Debit) == SumOf(ledger, a, Credit) == 0 {
      HasRow(rows, a);
      RowSumOfNone(rows, a, Debit);
      RowSumOfNone(rows, a, Credit);
    }
    NetIsDebitsLessCredits(ledger);
    TwoAccounts(rows, order, accounts);
  }

  lemma {:induction false} TwoAccounts(rows: seq<GroupRow>, order: seq<Account>, accounts: seq<AccountBalance>)
    requires Distinct(order) && |accounts| == |order|
    requires forall i | 0 <= i < |order| :: accounts[i] == BalanceOf(rows, order[i])
    ensures NetOf(accounts) == (if GatewayReceivable in order then BalanceOf(rows, GatewayReceivable).net else 0)
                               + (if MerchantPayable in order then BalanceOf(rows, MerchantPayable).net else 0)
  {
    if order != [] {
      var n := |order| - 1;
      TwoAccounts(rows, order[..n], accounts[..n]);
      assert order == order[..n] + [order[n]];
      assert order[n] !in order[..n];
    }
  }

  // ---------- every reachable state balances ----------

  lemma {:induction false} PairsCancel(db: Db, n: nat, scope: Scope)
    requires LedgerOk(db) && n % 2 == 0 && n <= |db.ledger|
    ensures Net(db.ledger[..n], scope) == 0
  {
    if n != 0 {
      PairsCancel(db, n - 2, scope);
      var d, c := db.ledger[n - 2], db.ledger[n - 1];
      assert PairOk(db, d, c);
      assert db.ledger[..n][..n - 1] == db.ledger[..n - 1];
      assert db.ledger[..n - 1][..n - 2] == db.ledger[..n - 2];
    }
  }

  /** In every run, with any faults and interleavings, the books balance: over everything,
      and over any one event, order, currency or settlement status. */
  lemma {:induction false} BooksBalance(cfg: Config, steps: seq<Step>, scope: Scope)
    ensures Net(Exec(cfg, steps).db.ledger, scope) == 0
  {
    var db := Exec(cfg, steps).db;
    Always(cfg, steps);
    PairsCancel(db, |db.ledger|, scope);
    assert db.ledger[..|db.ledger|] == db.ledger;
  }
}
