/** The payment handlers as they run on the database, one uninterrupted call at a time. */
module WebhookServices {
  import opened Wrappers
  import opened Ledger
  import opened Settlement
  import A = Audit

  /** A delivery on a quiet site: marker, read, provider check, transaction, and the marker's release when
      the transaction fails. */
  ghost function Delivered(st: Store, charge: Charge, report: Report): Site {
    var s := Next(Site(st, map[]), Deliver(0, charge));
    Next(Next(Next(Next(s, Read(0)), Verify(0, report)), Commit(0)), Commit(0))
  }

  /** The same delivery, once its marker is in place. */
  ghost function Processed(st: Store, charge: Charge, report: Report): Site {
    var s := Reading(Site(st, map[0 := Received(charge)]), 0, Received(charge));
    var v := if 0 in s.handlers then Verifying(s, 0, s.handlers[0], report) else s;
    if 0 in v.handlers then Committing(v, 0, v.handlers[0]) else v
  }

  lemma {:induction false} DeliveredIsProcessed(st: Store, charge: Charge, report: Report)
    requires charge.event !in st.markers
    ensures Delivered(st, charge, report) ==
      Next(Processed(st.(markers := st.markers + {charge.event}), charge, report), Commit(0))
  {
    hide Reading, Verifying, Committing, Crashing, Replying, A.Attempt, Unrelated;
    var st' := st.(markers := st.markers + {charge.event});
    assert Next(Site(st, map[]), Deliver(0, charge)) == Site(st', map[0 := Received(charge)]);
  }

  lemma {:induction false} DuplicateIgnored(st: Store, charge: Charge, report: Report)
    requires charge.event in st.markers
    ensures Delivered(st, charge, report) == Site(st, map[])
  {
    hide Reading, Verifying, Committing, Crashing, Replying, A.Attempt, Unrelated;
  }

  ghost function Reconciled(st: Store, row: nat, answer: Answer): Site {
    Next(Next(Next(Next(Site(st, map[]), Reconcile(0, row)), Reply(0, answer)), Read(0)), Commit(0))
  }

  lemma {:induction false} ReconciledLeaves(st: Store, row: nat, answer: Answer)
    requires !IsPending(st, row)
    ensures Reconciled(st, row, answer) == Site(st, map[])
  {
    hide CreditCheckout, Decide, A.Attempt, Unrelated, Verifying, Crashing;
  }

  lemma {:induction false} ReconciledIs(st: Store, row: nat, answer: Answer)
    requires IsPending(st, row)
    ensures Reconciled(st, row, answer) == Site(
        match Decide(answer, row, st.rows[row].amount)
        case Settle(tag, amount) =>
          var credited := CreditCheckout(st, row, amount, tag);
          if credited.Success? then credited.value else st
        case MarkFailed => FailPending(st, Checkout(row))
        case LeaveIt => st, map[])
  {
    hide CreditCheckout, Decide, A.Attempt, Unrelated, Verifying, Crashing;
  }

  class PaymentDatabase {
    var wallets: Wallets
    var rows: map<nat, FundingRow>
    var accounts: map<nat, nat>
    var markers: set<Event>

    constructor (st: Store)
      ensures Snapshot() == st
    {
      wallets, rows, accounts, markers := st.wallets, st.rows, st.accounts, st.markers;
    }

    function Snapshot(): Store
      reads this
    {
      Store(wallets, rows, accounts, markers)
    }

    method CheckIdempotency(event: Event) returns (duplicate: bool)
      modifies this`markers
      ensures duplicate <==> event in old(markers)
      ensures markers == old(markers) + {event}
    {
      duplicate := event in markers;
      markers := markers + {event};
    }

    method ReleaseIdempotencyMarker(event: Event)
      modifies this`markers
      ensures markers == old(markers) - {event}
    {
      markers := markers - {event};
    }

    method UpdateTransactionStatus(txRef: TxRef)
      modifies this`rows
      ensures Snapshot() == FailPending(old(Snapshot()), txRef)
    {
      if txRef.Checkout? && txRef.row in rows && rows[txRef.row].status.Pending? {
        rows := rows[txRef.row := rows[txRef.row].(status := Failed)];
      }
    }

    /** The entry every provider credit appends: the latest snapshot plus the amount. */
    method AppendCredit(user: nat, amount: int, ref: Reference, source: nat) returns (r: Result<(), LedgerError>)
      modifies this`wallets
      ensures match CreditTo(old(Snapshot()), user, amount, ref, source)
        case Failure(e) => r == Failure(e) && wallets == old(wallets)
        case Success(st) => r.Success? && Snapshot() == st
    {
      if Of(user) !in wallets {
        return Failure(UnknownWallet);
      }
      var w := wallets[Of(user)];
      var balanceBefore := Balance(w);
      var balanceAfter := balanceBefore + amount;
      if HasKey(w.entries, ref, Transaction, Row(source)) {
        return Failure(DuplicateEntry);
      }
      var entry := Entry(ref, Credit, Main, amount, balanceBefore, balanceAfter, Transaction, Row(source));
      wallets := wallets[Of(user) := w.(entries := w.entries + [entry])];
      return Success(());
    }

    method CreditHostedCheckout(row: nat, amount: int, tag: Label) returns (r: Result<(), LedgerError>)
      requires row in rows
      modifies this`wallets, this`rows
      ensures match CreditCheckout(old(Snapshot()), row, amount, tag)
        case Failure(e) => r == Failure(e) && Snapshot() == old(Snapshot())
        case Success(st) => r.Success? && Snapshot() == st
    {
      hide CreditTo;
      var _ :- AppendCredit(rows[row].user, amount, Settled(tag, row), row);
      rows := rows[row := rows[row].(status := Succeeded)];
      return Success(());
    }

    method CreditWalletFromVA(va: nat, amount: int, flwRef: nat) returns (r: Result<(), LedgerError>)
      requires va in accounts
      modifies this`wallets
      ensures match CreditAccount(old(Snapshot()), va, amount, flwRef)
        case Failure(e) => r == Failure(e) && Snapshot() == old(Snapshot())
        case Success(st) => r.Success? && Snapshot() == st
    {
      hide CreditTo, HasReference;
      var user := accounts[va];
      if Of(user) in wallets && HasReference(wallets[Of(user)].entries, Virtual(flwRef)) {
        return Success(());
      }
      r := AppendCredit(user, amount, Virtual(flwRef), va);
    }

    /** Everything after the marker was created; an exception is a failure. */
    method HandleChargeCompleted(charge: Charge, report: Report) returns (r: Result<(), LedgerError>)
      modifies this`wallets, this`rows
      ensures Processed(old(Snapshot()), charge, report)
        == Site(Snapshot(), if r.Success? then map[] else map[0 := Releasing(charge)])
      ensures r.Failure? ==> Snapshot() == old(Snapshot())
    {
      hide CreditCheckout, CreditAccount;
      var txRef := charge.event.txRef;
      if !charge.successful {
        UpdateTransactionStatus(txRef);
        return Success(());
      }
      if charge.transfer && txRef.Account? && txRef.va in accounts {
        var verification := VerifyCharge(report, None, txRef);
        if verification.None? {
          return Success(());
        }
        r := CreditWalletFromVA(txRef.va, verification.value, charge.event.flwRef);
        return;
      }
      if !(txRef.Checkout? && txRef.row in rows && rows[txRef.row].status.Pending?) {
        return Success(());
      }
      var verification := VerifyCharge(report, Some(rows[txRef.row].amount), txRef);
      if verification.None? {
        UpdateTransactionStatus(txRef);
        return Success(());
      }
      r := CreditHostedCheckout(txRef.row, verification.value, MethodLabel(SettledType(charge, report)));
    }

    /** An uninterrupted delivery does what its five steps do on a quiet site, and a failed one leaves no
        marker behind for the provider's retry to trip over. */
    method HandleWebhook(charge: Charge, report: Report) returns (r: Result<(), LedgerError>)
      modifies this
      ensures Delivered(old(Snapshot()), charge, report) == Site(Snapshot(), map[])
      ensures r.Failure? ==> charge.event !in markers && Snapshot() == old(Snapshot())
      ensures r.Success? ==> charge.event in markers
    {
      hide Processed, Delivered, Reading, Verifying, A.Attempt, CreditCheckout, CreditAccount;
      ghost var before := Snapshot();
      var duplicate := CheckIdempotency(charge.event);
      if duplicate {
        DuplicateIgnored(before, charge, report);
        assert markers == before.markers;
        return Success(());
      }
      DeliveredIsProcessed(before, charge, report);
      r := HandleChargeCompleted(charge, report);
      if r.Failure? {
        ReleaseIdempotencyMarker(charge.event);
      }
    }
  
    /** The status is read once more inside the transaction; a row no longer PENDING is left alone. */
    method SettleSuccessfulFunding(row: nat, amount: int, tag: Label) returns (r: Result<(), LedgerError>)
      modifies this`wallets, this`rows
      ensures !IsPending(old(Snapshot()), row) ==> r.Success? && Snapshot() == old(Snapshot())
      ensures IsPending(old(Snapshot()), row) ==> match CreditCheckout(old(Snapshot()), row, amount, tag)
        case Failure(e) => r == Failure(e) && Snapshot() == old(Snapshot())
        case Success(st) => r.Success? && Snapshot() == st
    {
      hide CreditCheckout;
      if row !in rows || !rows[row].status.Pending? {
        return Success(());
      }
      r := CreditHostedCheckout(row, amount, tag);
    }

    method MarkFailed(row: nat)
      modifies this`rows
      ensures Snapshot() == FailPending(old(Snapshot()), Checkout(row))
    {
      if row !in rows || !rows[row].status.Pending? {
        return;
      }
      rows := rows[row := rows[row].(status := Failed)];
    }

    /** An uninterrupted reconciliation does what its four steps do on a quiet site. */
    method ReconcilePendingTransaction(row: nat, answer: Answer) returns (r: Result<Decision, LedgerError>)
      modifies this`wallets, this`rows
      ensures Reconciled(old(Snapshot()), row, answer) == Site(Snapshot(), map[])
    {
      hide CreditCheckout, Decide, Reconciled, FailPending;
      if row !in rows || !rows[row].status.Pending? {
        ReconciledLeaves(Snapshot(), row, answer);
        return Success(LeaveIt);
      }
      ReconciledIs(Snapshot(), row, answer);
      var decision := Decide(answer, row, rows[row].amount);
      if decision.Settle? {
        var _ :- SettleSuccessfulFunding(row, decision.amount, decision.tag);
      } else if decision.MarkFailed? {
        MarkFailed(row);
      }
      return Success(decision);
    }
  }

  // ----- More than was asked --------------------------------------------------------------------------------

  /** A webhook settles a PENDING checkout only for exactly the amount asked and otherwise fails it; a
      reconciliation settles it for that amount or more. So an overpaid checkout ends FAILED and uncredited or
      SUCCESS and credited in full, whichever comes first. */
  lemma {:induction false} OverpaymentDependsOnWhoComesFirst(st: Store, row: nat, charge: Charge, report: Report)
    requires IsPending(st, row) && Of(st.rows[row].user) in st.wallets
    requires charge.successful && charge.event.txRef == Checkout(row) && charge.event !in st.markers
    requires report.status.Successful? && report.txRef == Checkout(row) && report.naira
    requires report.amount >= st.rows[row].amount
    requires forall tag :: !HasKey(st.wallets[Of(st.rows[row].user)].entries, Settled(tag, row), Transaction, Row(row))
    ensures var byWebhook := Delivered(st, charge, report).store;
      var byJob := Reconciled(st, row, Found(report)).store;
      var user := Of(st.rows[row].user);
      && row in byWebhook.rows && row in byJob.rows && user in byWebhook.wallets && user in byJob.wallets
      && (report.amount > st.rows[row].amount ==>
           byWebhook.rows[row].status.Failed? && byWebhook.wallets == st.wallets)
      && (report.amount == st.rows[row].amount ==>
           byWebhook.rows[row].status.Succeeded?
           && Balance(byWebhook.wallets[user]) == Balance(st.wallets[user]) + report.amount)
      && byJob.rows[row].status.Succeeded?
      && Balance(byJob.wallets[user]) == Balance(st.wallets[user]) + report.amount
  {
    hide Delivered, Reconciled, HasKey, MethodLabel, SettledType;
    ByWebhook(st, row, charge, report);
    ByJob(st, row, report);
  }

  lemma {:induction false} CreditedOnTop(st: Store, row: nat, amount: int, tag: Label)
    requires row in st.rows && Of(st.rows[row].user) in st.wallets
    requires !HasKey(st.wallets[Of(st.rows[row].user)].entries, Settled(tag, row), Transaction, Row(row))
    ensures CreditCheckout(st, row, amount, tag).Success?
    ensures var st' := CreditCheckout(st, row, amount, tag).value;
      var user := Of(st.rows[row].user);
      && row in st'.rows && st'.rows[row].status.Succeeded? && user in st'.wallets && st'.markers == st.markers
      && Balance(st'.wallets[user]) == Balance(st.wallets[user]) + amount
  {
    hide HasKey;
  }

  lemma {:induction false} ByWebhook(st: Store, row: nat, charge: Charge, report: Report)
    requires IsPending(st, row) && Of(st.rows[row].user) in st.wallets
    requires charge.successful && charge.event.txRef == Checkout(row) && charge.event !in st.markers
    requires report.status.Successful? && report.txRef == Checkout(row) && report.naira
    requires report.amount >= st.rows[row].amount
    requires forall tag :: !HasKey(st.wallets[Of(st.rows[row].user)].entries, Settled(tag, row), Transaction, Row(row))
    ensures var end := Delivered(st, charge, report).store;
      var user := Of(st.rows[row].user);
      && row in end.rows && user in end.wallets
      && (report.amount > st.rows[row].amount ==> end.rows[row].status.Failed? && end.wallets == st.wallets)
      && (report.amount == st.rows[row].amount ==>
           end.rows[row].status.Succeeded? && Balance(end.wallets[user]) == Balance(st.wallets[user]) + report.amount)
  {
    hide Delivered, HasKey, MethodLabel, SettledType, CreditCheckout, CreditAccount, Balance;
    var st' := st.(markers := st.markers + {charge.event});
    var tag := MethodLabel(SettledType(charge, report));
    DeliveredIsProcessed(st, charge, report);
    CreditedOnTop(st', row, report.amount, tag);
    Settles(st', row, charge, report, tag);
    QuietCommit(Processed(st', charge, report));
  }

  /** A handler that has finished has nothing left to commit. */
  lemma {:induction false} QuietCommit(s: Site)
    requires 0 !in s.handlers
    ensures Next(s, Commit(0)) == s
  {
    hide A.Attempt, Unrelated;
  }

  lemma {:induction false} Settles(st: Store, row: nat, charge: Charge, report: Report, tag: Label)
    requires IsPending(st, row) && charge.successful && charge.event.txRef == Checkout(row)
    requires report.status.Successful? && report.txRef == Checkout(row) && report.naira
    requires tag == MethodLabel(SettledType(charge, report)) && CreditCheckout(st, row, report.amount, tag).Success?
    ensures Processed(st, charge, report) == Site(
      if report.amount == st.rows[row].amount then CreditCheckout(st, row, report.amount, tag).value
      else SetStatus(st, row, Failed), map[])
  {
    hide MethodLabel, SettledType, CreditCheckout, CreditAccount;
  }

  lemma {:induction false} ByJob(st: Store, row: nat, report: Report)
    requires IsPending(st, row) && Of(st.rows[row].user) in st.wallets
    requires report.status.Successful? && report.txRef == Checkout(row) && report.naira
    requires report.amount >= st.rows[row].amount
    requires forall tag :: !HasKey(st.wallets[Of(st.rows[row].user)].entries, Settled(tag, row), Transaction, Row(row))
    ensures var end := Reconciled(st, row, Found(report)).store;
      var user := Of(st.rows[row].user);
      && row in end.rows && user in end.wallets && end.rows[row].status.Succeeded?
      && Balance(end.wallets[user]) == Balance(st.wallets[user]) + report.amount
  {
    hide HasKey, MethodLabel, CreditCheckout, CreditAccount, Balance, A.Attempt, Unrelated, Verifying, Crashing;
    CreditedOnTop(st, row, report.amount, MethodLabel(report.paymentType));
  }
}
