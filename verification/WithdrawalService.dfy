/** The withdrawal request and its two endings as they run on the database, one uninterrupted call at a time. */
module WithdrawalServices {
  import opened Wrappers
  import opened Ledger
  import opened LedgerServices
  import opened Withdrawals
  import A = Audit

  class TransferDatabase {
    var wallets: Wallets
    var rows: map<nat, TransferRow>
    var markers: set<nat>

    constructor (st: Store)
      ensures Snapshot() == st
    {
      wallets, rows, markers := st.wallets, st.rows, st.markers;
    }

    function Snapshot(): Store
      reads this
    {
      Store(wallets, rows, markers)
    }

    /** The whole history is summed under the wallet's lock, then the row and the debit are written. */
    method Debit(row: nat, user: nat, amount: int) returns (r: Result<(), LedgerError>)
      modifies this`wallets, this`rows
      ensures match Initialize(old(Snapshot()), row, user, amount)
        case Failure(e) => r == Failure(e) && Snapshot() == old(Snapshot())
        case Success(st) => r.Success? && Snapshot() == st
    {
      hide Reserved;
      if amount < 10000 {
        return Failure(AmountNotPositive);
      }
      if Of(user) !in wallets {
        return Failure(UnknownWallet);
      }
      if row in rows {
        return Failure(DuplicateEntry);
      }
      var w := wallets[Of(user)];
      var credit, debit, reserved := ComputeFullBalance(w);
      var totalBalance := credit - debit;
      var availableBalance := totalBalance - reserved;
      if availableBalance < amount {
        return Failure(InsufficientFunds);
      }
      if HasKey(w.entries, DebitRef(row), Transaction, Row(row)) {
        return Failure(DuplicateEntry);
      }
      var balanceAfter := totalBalance - amount;
      var entry := Entry(DebitRef(row), EntryType.Debit, Main, amount, totalBalance, balanceAfter, Transaction,
        Row(row));
      rows := rows[row := TransferRow(user, amount, Pending)];
      wallets := wallets[Of(user) := w.(entries := w.entries + [entry])];
      return Success(());
    }

    method CreateReversalEntry(row: nat) returns (r: Result<(), LedgerError>)
      requires row in rows
      modifies this`wallets, this`rows
      ensures match Reverse(old(Snapshot()), row, true)
        case Failure(e) => r == Failure(e) && Snapshot() == old(Snapshot())
        case Success(st) => r.Success? && Snapshot() == st
    {
      hide Reserved;
      var id := Of(rows[row].user);
      if id !in wallets {
        return Failure(UnknownWallet);
      }
      var credit, debit, _ := ComputeFullBalance(wallets[id]);
      var balanceBefore := credit - debit;
      r := AppendReversal(row, id, balanceBefore);
    }

    method AppendReversal(row: nat, id: WalletId, balanceBefore: int) returns (r: Result<(), LedgerError>)
      requires row in rows && id == Of(rows[row].user) && id in wallets
      modifies this`wallets, this`rows
      ensures var paid, ref := old(rows)[row].amount, ReversalRef(row);
        match A.Insert(old(wallets)[id], balanceBefore, Credit, paid, ref, SourceType.Reversal, Row(row))
        case Failure(e) => r == Failure(e) && Snapshot() == old(Snapshot())
        case Success(w) =>
          && r.Success?
          && Snapshot() == SetStatus(old(Snapshot()).(wallets := old(wallets)[id := w]), row, Failed)
    {
      var w := wallets[id];
      var amount := rows[row].amount;
      var balanceAfter := balanceBefore + amount;
      if HasKey(w.entries, ReversalRef(row), SourceType.Reversal, Row(row)) {
        return Failure(DuplicateEntry);
      }
      var entry := Entry(ReversalRef(row), Credit, Main, amount, balanceBefore, balanceAfter, SourceType.Reversal,
        Row(row));
      wallets := wallets[id := w.(entries := w.entries + [entry])];
      rows := rows[row := rows[row].(status := Failed)];
      return Success(());
    }

    /** The debit, the provider's call, and the reversal when that call fails: an uninterrupted request ends
        with its row PENDING and its amount gone, or FAILED and its balance as it was. */
    method InitializeWithdrawal(row: nat, user: nat, amount: int, accepted: bool) returns (r: Result<(), LedgerError>)
      requires Good(Snapshot())
      modifies this
      ensures Good(Snapshot())
      ensures Initialize(old(Snapshot()), row, user, amount).Failure? ==> r.Failure? && Snapshot() == old(Snapshot())
      ensures Initialize(old(Snapshot()), row, user, amount).Success? ==>
        && row in rows && Of(user) in wallets && rows[row].user == user && rows[row].amount == amount
        && (r.Success? <==> accepted)
        && (accepted ==> rows[row].status.Pending? && Effect(wallets[Of(user)].entries, row) == 0 - amount)
        && (!accepted ==> rows[row].status.Failed? && Effect(wallets[Of(user)].entries, row) == 0)
    {
      hide Initialize, Reverse, Effect, Reversed, Good, A.Attempt;
      ghost var before := Snapshot();
      var _ :- Debit(row, user, amount);
      ghost var debited := Snapshot();
      InitializeKeeps(before, row, user, amount, debited);
      Costs(debited, row);
      if accepted {
        return Success(());
      }
      NotYetReversed(debited, row);
      var _ := CreateReversalEntry(row);
      ReverseKeeps(debited, row, true, Snapshot());
      Costs(Snapshot(), row);
      return Failure(UnknownWallet);
    }

    /** A webhook on a quiet site: a row no longer PENDING is left alone. */
    method HandleTransferCompleted(row: nat, confirmed: bool) returns (r: Result<(), LedgerError>)
      modifies this`wallets, this`rows
      ensures !IsPending(old(Snapshot()), row) ==> r.Success? && Snapshot() == old(Snapshot())
      ensures IsPending(old(Snapshot()), row) && confirmed ==>
        r.Success? && Snapshot() == SetStatus(old(Snapshot()), row, Succeeded)
      ensures IsPending(old(Snapshot()), row) && !confirmed ==>
        match Reverse(old(Snapshot()), row, false)
        case Failure(e) => r == Failure(e) && Snapshot() == old(Snapshot())
        case Success(st) => r.Success? && Snapshot() == st
    {
      if row !in rows || !rows[row].status.Pending? {
        return Success(());
      }
      if confirmed {
        rows := rows[row := rows[row].(status := Succeeded)];
        return Success(());
      }
      var id := Of(rows[row].user);
      if id !in wallets {
        return Failure(UnknownWallet);
      }
      r := AppendReversal(row, id, Balance(wallets[id]));
    }
  }

  lemma {:induction false} Costs(st: Store, row: nat)
    requires Good(st) && row in st.rows
    ensures Of(st.rows[row].user) in st.wallets
    ensures var es := st.wallets[Of(st.rows[row].user)].entries;
      Effect(es, row) == if Reversed(es, row) then 0 else 0 - st.rows[row].amount
  {
    hide Effect, Reversed;
    assert Accounted(st, Of(st.rows[row].user), row);
  }

  lemma {:induction false} NotYetReversed(st: Store, row: nat)
    requires row in st.rows && Of(st.rows[row].user) in st.wallets
    requires !Reversed(st.wallets[Of(st.rows[row].user)].entries, row)
    ensures Reverse(st, row, true).Success?
  {
    hide HasKey, Balance;
  }
}
