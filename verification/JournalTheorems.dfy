/** The journal by transaction id: which rows share one, and when its debits
    equal its credits. */
module JournalTheorems {
  import opened Amounts
  import opened Backend

  // ---------- one transaction ----------

  /** Total of the rows of one transaction id, in one currency and of one type. */
  function Total(ledger: seq<LedgerEntry>, id: nat, currency: string, entryType: EntryType): real {
    if ledger == [] then 0.0
    else
      var e := ledger[|ledger| - 1];
      Total(ledger[..|ledger| - 1], id, currency, entryType)
        + if e.transactionId == id && e.account.currency == currency && e.entryType == entryType then e.amount else 0.0
  }

  /** Its credits less its debits. */
  function NetIn(ledger: seq<LedgerEntry>, id: nat, currency: string): real {
    Total(ledger, id, currency, CREDIT) - Total(ledger, id, currency, DEBIT)
  }

  lemma NetInAppend(ledger: seq<LedgerEntry>, e: LedgerEntry, id: nat, currency: string)
    ensures NetIn(ledger + [e], id, currency)
         == NetIn(ledger, id, currency)
            + if e.transactionId == id && e.account.currency == currency
              then (if e.entryType == CREDIT then e.amount else -e.amount) else 0.0
  {
    assert (ledger + [e])[..|ledger|] == ledger;
  }

  /** The rows of a trade balance within their transaction, in each currency. */
  lemma EntriesBalance(ledger: seq<LedgerEntry>, t: TradeRow, txId: nat)
    ensures forall id, currency :: NetIn(ledger + Entries(t, txId), id, currency) == NetIn(ledger, id, currency)
  {
    hide Value, NetIn;
    var e := Entries(t, txId);
    var l1 := ledger + [e[0]];
    var l2 := l1 + [e[1]];
    var l3 := l2 + [e[2]];
    assert ledger + e == l3 + [e[3]];
    forall id, currency ensures NetIn(ledger + e, id, currency) == NetIn(ledger, id, currency) {
      NetInAppend(ledger, e[0], id, currency);
      NetInAppend(l1, e[1], id, currency);
      NetInAppend(l2, e[2], id, currency);
      NetInAppend(l3, e[3], id, currency);
    }
  }

  /** What a transaction adds to the balance of an id: only a deposit leaves its
      own unbalanced, by its amount. */
  function DepositIn(db: Db, tx: Transaction, id: nat, currency: string): real {
    if tx.Deposit? && Attempt(db, tx).Some? && id == |db.ledger| && tx.currency == currency then tx.amount else 0.0
  }

  lemma CommitNets(db: Db, tx: Transaction, id: nat, currency: string)
    ensures NetIn(Commit(db, tx).ledger, id, currency)
         == NetIn(db.ledger, id, currency) + DepositIn(db, tx, id, currency)
  {
    hide Value, Worth, Shift, Movements, Entries, NetIn, FillRow;
    match tx {
      case Place(_, _) =>
      case CancelOrder(_, _) =>
      case Settle(t) => EntriesBalance(db.ledger, t, |db.ledger|);
      case Deposit(userId, c, amount) =>
        NetInAppend(db.ledger, LedgerEntry(|db.ledger|, Key(userId, c), amount, CREDIT), id, currency);
    }
  }

  /** A transaction appends its rows, all under the id that is the length of the
      journal before them: four for a settlement, one for a deposit. */
  lemma CommitAppends(db: Db, tx: Transaction)
    ensures var (l, l') := (db.ledger, Commit(db, tx).ledger);
            && |l| <= |l'| && l'[..|l|] == l
            && (forall i :: |l| <= i < |l'| ==> l'[i].transactionId == |l|)
            && |l'| - |l| == if Attempt(db, tx).None? then 0
                             else if tx.Settle? then 4 else if tx.Deposit? then 1 else 0
  {
    hide Value, Worth, Shift, Movements, FillRow;
  }

  // ---------- runs ----------

  lemma {:induction false} RunAppends(db: Db, txs: seq<Transaction>)
    ensures var (l, l') := (db.ledger, CommitAll(db, txs).ledger); |l| <= |l'| && l'[..|l|] == l
    decreases |txs|
  {
    hide Commit;
    if txs != [] {
      CommitAppends(db, txs[0]);
      RunAppends(Commit(db, txs[0]), txs[1..]);
      var (l, l1, l') := (db.ledger, Commit(db, txs[0]).ledger, CommitAll(db, txs).ledger);
      assert l'[..|l|] == l'[..|l1|][..|l|];
    }
  }

  lemma {:induction false} RunSplits(db: Db, txs: seq<Transaction>, k: nat)
    requires k < |txs|
    ensures CommitAll(db, txs[..k + 1]) == Commit(CommitAll(db, txs[..k]), txs[k])
    decreases |txs|
  {
    hide Commit;
    if k == 0 {
      assert txs[..1][0] == txs[0] && txs[..1][1..] == [];
    } else {
      RunSplits(Commit(db, txs[0]), txs[1..], k - 1);
      assert txs[..k + 1][1..] == txs[1..][..k] && txs[..k][1..] == txs[1..][..k - 1];
    }
  }

  /** Every row of a run was written by one of its transactions, under the length
      of the journal before that one: rows share an id exactly when the same
      transaction wrote them. */
  lemma {:induction false} WrittenBy(db: Db, txs: seq<Transaction>, i: nat) returns (k: nat)
    requires |db.ledger| <= i < |CommitAll(db, txs).ledger|
    ensures k < |txs|
    ensures var (before, after) := (CommitAll(db, txs[..k]).ledger, CommitAll(db, txs[..k + 1]).ledger);
            |before| <= i < |after| && CommitAll(db, txs).ledger[i].transactionId == |before|
    decreases |txs|
  {
    hide Commit;
    var d := Commit(db, txs[0]);
    CommitAppends(db, txs[0]);
    RunAppends(d, txs[1..]);
    if i < |d.ledger| {
      k := 0;
      assert txs[..1][0] == txs[0] && txs[..1][1..] == [];
      assert CommitAll(db, txs).ledger[i] == CommitAll(db, txs).ledger[..|d.ledger|][i];
    } else {
      var j := WrittenBy(d, txs[1..], i);
      k := j + 1;
      assert txs[..k + 1][1..] == txs[1..][..k] && txs[..k][1..] == txs[1..][..j];
    }
  }

  lemma SameTransactionExactly(db: Db, txs: seq<Transaction>, i: nat, j: nat) returns (k: nat, m: nat)
    requires |db.ledger| <= i < |CommitAll(db, txs).ledger| && |db.ledger| <= j < |CommitAll(db, txs).ledger|
    ensures k < |txs| && m < |txs|
    ensures |CommitAll(db, txs[..k]).ledger| <= i < |CommitAll(db, txs[..k + 1]).ledger|
    ensures |CommitAll(db, txs[..m]).ledger| <= j < |CommitAll(db, txs[..m + 1]).ledger|
    ensures var l := CommitAll(db, txs).ledger; l[i].transactionId == l[j].transactionId <==> k == m
  {
    hide Commit;
    k := WrittenBy(db, txs, i);
    m := WrittenBy(db, txs, j);
    if k < m {
      RunGrows(db, txs, k + 1, m);
    } else if m < k {
      RunGrows(db, txs, m + 1, k);
    }
  }

  lemma RunGrows(db: Db, txs: seq<Transaction>, k: nat, m: nat)
    requires k <= m <= |txs|
    ensures |CommitAll(db, txs[..k]).ledger| <= |CommitAll(db, txs[..m]).ledger|
    decreases m - k
  {
    hide Commit;
    if k < m {
      RunSplits(db, txs, k);
      CommitAppends(CommitAll(db, txs[..k]), txs[k]);
      RunGrows(db, txs, k + 1, m);
    }
  }

  /** What the deposits of a run add to the balance of an id. */
  function DepositsIn(db: Db, txs: seq<Transaction>, id: nat, currency: string): real
    decreases |txs|
  {
    if txs == [] then 0.0
    else DepositIn(db, txs[0], id, currency) + DepositsIn(Commit(db, txs[0]), txs[1..], id, currency)
  }

  lemma {:induction false} RunNets(db: Db, txs: seq<Transaction>, id: nat, currency: string)
    ensures NetIn(CommitAll(db, txs).ledger, id, currency)
         == NetIn(db.ledger, id, currency) + DepositsIn(db, txs, id, currency)
    decreases |txs|
  {
    hide Commit, NetIn, DepositIn;
    if txs != [] {
      CommitNets(db, txs[0], id, currency);
      RunNets(Commit(db, txs[0]), txs[1..], id, currency);
    }
  }

  /** Whether a deposit of the run wrote its amount under this id. */
  ghost predicate DepositWrote(db: Db, txs: seq<Transaction>, id: nat)
    decreases |txs|
  {
    txs != [] &&
    ((txs[0].Deposit? && Attempt(db, txs[0]).Some? && id == |db.ledger| && txs[0].amount != 0.0)
     || DepositWrote(Commit(db, txs[0]), txs[1..], id))
  }

  lemma {:induction false} LaterDeposits(db: Db, txs: seq<Transaction>, id: nat, currency: string)
    requires id < |db.ledger|
    ensures DepositsIn(db, txs, id, currency) == 0.0 && !DepositWrote(db, txs, id)
    decreases |txs|
  {
    hide Commit;
    if txs != [] {
      CommitAppends(db, txs[0]);
      LaterDeposits(Commit(db, txs[0]), txs[1..], id, currency);
    }
  }

  lemma {:induction false} DepositsExactly(db: Db, txs: seq<Transaction>, id: nat) returns (currency: string)
    ensures DepositWrote(db, txs, id) ==> DepositsIn(db, txs, id, currency) != 0.0
    ensures !DepositWrote(db, txs, id) ==> forall c :: DepositsIn(db, txs, id, c) == 0.0
    decreases |txs|
  {
    hide Commit;
    currency := "";
    if txs != [] {
      var d := Commit(db, txs[0]);
      CommitAppends(db, txs[0]);
      if txs[0].Deposit? && Attempt(db, txs[0]).Some? && id == |db.ledger| {
        currency := txs[0].currency;
        forall c ensures DepositsIn(d, txs[1..], id, c) == 0.0 && !DepositWrote(d, txs[1..], id) {
          LaterDeposits(d, txs[1..], id, c);
        }
        LaterDeposits(d, txs[1..], id, currency);
      } else {
        currency := DepositsExactly(d, txs[1..], id);
      }
    }
  }

  /** Over any run from an empty journal: the debits of a transaction id equal
      its credits in every currency, exactly when no deposit wrote an amount under it. */
  lemma BalancedExactly(db: Db, txs: seq<Transaction>, id: nat)
    requires db.ledger == []
    ensures var l := CommitAll(db, txs).ledger;
            (forall c :: Total(l, id, c, DEBIT) == Total(l, id, c, CREDIT)) <==> !DepositWrote(db, txs, id)
  {
    hide CommitAll, DepositsIn, DepositWrote;
    var currency := DepositsExactly(db, txs, id);
    var l := CommitAll(db, txs).ledger;
    RunNets(db, txs, id, currency);
    if !DepositWrote(db, txs, id) {
      forall c ensures Total(l, id, c, DEBIT) == Total(l, id, c, CREDIT) {
        RunNets(db, txs, id, c);
      }
    } else {
      assert Total(l, id, currency, DEBIT) != Total(l, id, currency, CREDIT);
    }
  }
}
