/** The provider-facing services write the wallets the savings circles use: each of their writes is one of the
    platform's External steps, so what holds in every run of the platform holds with them in it. */
module ProviderMoney {
  import opened Wrappers
  import opened Ledger
  import opened Tables
  import opened Platform
  import A = Audit
  import S = Settlement
  import W = Withdrawals

  /** A settled payment, by checkout or virtual account. */
  lemma {:induction false} SettlementIsExternal(t: Tables, st: S.Store, user: nat, amount: nat, ref: Reference,
      source: nat)
    requires st.wallets == t.wallets && !ref.Drawn?
    ensures var op := A.SnapshotCredit(amount, ref, Transaction, Ledger.Row(source));
      var r := S.CreditTo(st, user, amount, ref, source);
      && Provider(op)
      && (Platform.Attempt(t, External(user, op)).Success? <==> r.Success?)
      && (r.Success? ==> Platform.Attempt(t, External(user, op)) == Success(t.(wallets := r.value.wallets)))
      && ExternalAmount(op) == amount
  {
    hide HasKey;
  }

  /** A withdrawal's debit. */
  lemma {:induction false} WithdrawalIsExternal(t: Tables, st: W.Store, row: nat, user: nat, amount: nat)
    requires st.wallets == t.wallets && W.Initialize(st, row, user, amount).Success?
    ensures var op := A.HistoryDebit(amount, W.DebitRef(row), Ledger.Row(row));
      && Provider(op)
      && Platform.Attempt(t, External(user, op)) ==
           Success(t.(wallets := W.Initialize(st, row, user, amount).value.wallets))
      && ExternalAmount(op) == 0 - amount
  {
    hide A.Attempt;
  }

  /** Its compensating credit, on either path. */
  lemma {:induction false} ReversalIsExternal(t: Tables, st: W.Store, row: nat, fromHistory: bool)
    requires st.wallets == t.wallets && row in st.rows && W.Reverse(st, row, fromHistory).Success?
    ensures var amount := st.rows[row].amount;
      var op := if fromHistory then A.HistoryCredit(amount, W.ReversalRef(row), Ledger.Row(row))
                else A.SnapshotCredit(amount, W.ReversalRef(row), SourceType.Reversal, Ledger.Row(row));
      && Provider(op)
      && Platform.Attempt(t, External(st.rows[row].user, op)) ==
           Success(t.(wallets := W.Reverse(st, row, fromHistory).value.wallets))
      && ExternalAmount(op) == amount
  {
    hide A.Attempt;
  }
}
