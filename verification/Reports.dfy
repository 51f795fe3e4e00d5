/** What a provider's report does to a payment: which answers credit it, which fail it, and that nothing is
    ever credited without a report that says it was paid. */
module Reports {
  import opened Wrappers
  import opened Ledger
  import opened Settlement
  import opened AtMostOnce
  import opened SettlementTheorems
  import opened WebhookServices
  import A = Audit

  // ----- Labels ----------------------------------------------------------------------------------------------

  /** The five labels in the words providers use, and so which two payment types credit under one key. */
  lemma {:induction false} LabelTable(paymentType: Option<string>, other: Option<string>)
    ensures MethodLabel(Some("card")) == FundingCard && MethodLabel(Some("ussd")) == FundingUssd
    ensures MethodLabel(Some("account")) == FundingAccount
    ensures MethodLabel(Some("bank_transfer")) == MethodLabel(Some("banktransfer")) == FundingBankTransfer
    ensures MethodLabel(None) == FundingUnknown
    ensures MethodLabel(paymentType) == FundingUnknown <==>
      paymentType.None? || paymentType.value !in {"card", "ussd", "account", "bank_transfer", "banktransfer"}
    ensures MethodLabel(paymentType) == MethodLabel(other) != FundingUnknown ==>
      paymentType == other
      || {paymentType, other} == {Some("bank_transfer"), Some("banktransfer")}
  {
  }

  // ----- One credit ------------------------------------------------------------------------------------------

  /** No ledger row of the user settles this checkout yet, whatever the payment type. */
  predicate Unpaid(st: Store, row: nat) {
    && row in st.rows && Of(st.rows[row].user) in st.wallets
    && forall i :: 0 <= i < |st.wallets[Of(st.rows[row].user)].entries| ==>
         !(st.wallets[Of(st.rows[row].user)].entries[i].ref.Settled?
           && st.wallets[Of(st.rows[row].user)].entries[i].ref.row == row)
  }

  /** After every run a PENDING checkout is unsettled and its user has a wallet. */
  lemma {:induction false} PendingIsUnpaid(s: Site, steps: seq<Step>, row: nat)
    requires Fresh(s) && IsPending(Run(s, steps).store, row)
    ensures Unpaid(Run(s, steps).store, row)
  {
    hide Run, Fresh, GoodPhase, Tagged, GoodStore, Marked;
    FreshGood(s, row, FundingCard);
    RunKeeps(s, steps);
    PendingUncredited(Run(s, steps).store, row);
    assert !SettledIn(Run(s, steps).store.wallets[Of(Run(s, steps).store.rows[row].user)].entries, row);
  }

  /** One wallet got one credit on top of its balance, and every other wallet is as it was. */
  ghost predicate PaidIn(ws: Wallets, user: nat, amount: int, ref: Reference, source: nat, ws': Wallets) {
    && Of(user) in ws && ws'.Keys == ws.Keys
    && (forall id :: id in ws && id != Of(user) ==> ws'[id] == ws[id])
    && ws'[Of(user)].buckets == ws[Of(user)].buckets
    && |ws'[Of(user)].entries| == |ws[Of(user)].entries| + 1
    && ws'[Of(user)].entries[..|ws[Of(user)].entries|] == ws[Of(user)].entries
    && ws'[Of(user)].entries[|ws[Of(user)].entries|] ==
         Entry(ref, Credit, Main, amount, Balance(ws[Of(user)]), Balance(ws[Of(user)]) + amount, Transaction,
           Row(source))
    && Balance(ws'[Of(user)]) == Balance(ws[Of(user)]) + amount
  }

  lemma {:induction false} CreditPays(st: Store, user: nat, amount: int, ref: Reference, source: nat)
    requires Of(user) in st.wallets && !HasKey(st.wallets[Of(user)].entries, ref, Transaction, Row(source))
    ensures CreditTo(st, user, amount, ref, source).Success?
    ensures var st' := CreditTo(st, user, amount, ref, source).value;
      PaidIn(st.wallets, user, amount, ref, source, st'.wallets) && st' == st.(wallets := st'.wallets)
  {
    hide HasKey;
  }

  lemma {:induction false} CheckoutPays(st: Store, row: nat, amount: int, tag: Label)
    requires Unpaid(st, row)
    ensures CreditCheckout(st, row, amount, tag).Success?
    ensures var st' := CreditCheckout(st, row, amount, tag).value;
      && PaidIn(st.wallets, st.rows[row].user, amount, Settled(tag, row), row, st'.wallets)
      && st' == st.(wallets := st'.wallets, rows := st.rows[row := st.rows[row].(status := Succeeded)])
  {
    hide PaidIn, CreditTo;
    CreditPays(st, st.rows[row].user, amount, Settled(tag, row), row);
  }

  // ----- One reconciliation ----------------------------------------------------------------------------------

  /** An uninterrupted reconciliation of a PENDING checkout, answer by answer. It ends SUCCESS, with the
      reported amount on top of the user's balance, exactly when the provider found this payment in naira,
      successful and not short. It ends FAILED, with no wallet touched, exactly when the provider's record has
      been missing for too long, or is of this payment and says another currency, no success, or too little.
      Any other answer leaves everything as it was. */
  lemma {:induction false} ReconciledExactly(st: Store, row: nat, answer: Answer)
    requires Unpaid(st, row) && st.rows[row].status.Pending?
    ensures var end := Reconciled(st, row, answer);
      var asked := st.rows[row].amount;
      var ours := answer.Found? && answer.report.txRef == Checkout(row);
      var paid := ours && answer.report.naira && answer.report.status.Successful? && answer.report.amount >= asked;
      var failed := (answer.Error? && answer.missingTooLong)
        || (ours && (!answer.report.naira || answer.report.status.Unsuccessful?
                     || (answer.report.status.Successful? && answer.report.amount < asked)));
      var status := if paid then Succeeded else if failed then Failed else Pending;
      && end.handlers == map[]
      && end.store == st.(wallets := end.store.wallets, rows := st.rows[row := st.rows[row].(status := status)])
      && (if paid then
            PaidIn(st.wallets, st.rows[row].user, answer.report.amount,
              Settled(MethodLabel(answer.report.paymentType), row), row, end.store.wallets)
          else end.store.wallets == st.wallets)
  {
    hide Reconciled, CreditCheckout, MethodLabel, PaidIn;
    ReconciledIs(st, row, answer);
    if answer.Found? {
      CheckoutPays(st, row, answer.report.amount, MethodLabel(answer.report.paymentType));
    }
  }

  // ----- One delivery ----------------------------------------------------------------------------------------

  lemma {:induction false} ProcessedCheckout(st: Store, row: nat, charge: Charge, report: Report)
    requires Unpaid(st, row) && st.rows[row].status.Pending? && charge.event.txRef == Checkout(row)
    ensures var end := Processed(st, charge, report);
      var paid := charge.successful && report.status.Successful? && report.txRef == Checkout(row) && report.naira
        && report.amount == st.rows[row].amount;
      var status := if paid then Succeeded else Failed;
      var paymentType := if report.paymentType.Some? then report.paymentType else charge.paymentType;
      && end.handlers == map[]
      && end.store == st.(wallets := end.store.wallets, rows := st.rows[row := st.rows[row].(status := status)])
      && (if paid then PaidIn(st.wallets, st.rows[row].user, report.amount, Settled(MethodLabel(paymentType), row),
            row, end.store.wallets)
          else end.store.wallets == st.wallets)
  {
    hide CreditCheckout, CreditAccount, MethodLabel, PaidIn;
    CheckoutPays(st, row, report.amount, MethodLabel(SettledType(charge, report)));
  }

  /** An uninterrupted first delivery about a PENDING checkout: SUCCESS, with the amount on top of the user's
      balance, exactly when the webhook claims success and the provider's own record is of this payment,
      successful, in naira and of exactly the amount asked. Otherwise FAILED, with no wallet touched. */
  lemma {:induction false} DeliveredExactly(st: Store, row: nat, charge: Charge, report: Report)
    requires Unpaid(st, row) && st.rows[row].status.Pending?
    requires charge.event.txRef == Checkout(row) && charge.event !in st.markers
    ensures var end := Delivered(st, charge, report);
      var paid := charge.successful && report.status.Successful? && report.txRef == Checkout(row) && report.naira
        && report.amount == st.rows[row].amount;
      var status := if paid then Succeeded else Failed;
      var paymentType := if report.paymentType.Some? then report.paymentType else charge.paymentType;
      && end.handlers == map[]
      && end.store == Store(end.store.wallets, st.rows[row := st.rows[row].(status := status)], st.accounts,
           st.markers + {charge.event})
      && (if paid then PaidIn(st.wallets, st.rows[row].user, report.amount, Settled(MethodLabel(paymentType), row),
            row, end.store.wallets)
          else end.store.wallets == st.wallets)
  {
    hide Processed, Delivered, PaidIn, MethodLabel, SettledType;
    var st' := st.(markers := st.markers + {charge.event});
    DeliveredIsProcessed(st, charge, report);
    ProcessedCheckout(st', row, charge, report);
    QuietCommit(Processed(st', charge, report));
  }

  /** A delivery about a checkout that is not PENDING, or that nobody knows, leaves its marker and nothing else. */
  lemma {:induction false} DeliveredTooLate(st: Store, row: nat, charge: Charge, report: Report)
    requires !IsPending(st, row) && charge.event.txRef == Checkout(row) && charge.event !in st.markers
    ensures Delivered(st, charge, report) == Site(st.(markers := st.markers + {charge.event}), map[])
  {
    hide Delivered, CreditCheckout, CreditAccount;
    var st' := st.(markers := st.markers + {charge.event});
    DeliveredIsProcessed(st, charge, report);
    QuietCommit(Processed(st', charge, report));
  }

  /** The account has an owner with a wallet, to which the provider's reference is new. */
  predicate Payable(st: Store, va: nat, flwRef: nat) {
    && va in st.accounts && Of(st.accounts[va]) in st.wallets
    && forall i :: 0 <= i < |st.wallets[Of(st.accounts[va])].entries| ==>
         st.wallets[Of(st.accounts[va])].entries[i].ref != Virtual(flwRef)
  }

  lemma {:induction false} AccountPays(st: Store, va: nat, amount: int, flwRef: nat)
    requires va in st.accounts
    ensures CreditAccount(st, va, amount, flwRef).Success? <==> Of(st.accounts[va]) in st.wallets
    ensures Of(st.accounts[va]) in st.wallets ==>
      var st' := CreditAccount(st, va, amount, flwRef).value;
      if Payable(st, va, flwRef) then
        PaidIn(st.wallets, st.accounts[va], amount, Virtual(flwRef), va, st'.wallets)
        && st' == st.(wallets := st'.wallets)
      else st' == st
  {
    hide PaidIn;
    if Payable(st, va, flwRef) {
      CreditPays(st, st.accounts[va], amount, Virtual(flwRef), va);
    }
  }

  lemma {:induction false} ProcessedAccount(st: Store, va: nat, charge: Charge, report: Report)
    requires charge.event.txRef == Account(va)
    ensures var end := Processed(st, charge, report);
      var paid := charge.successful && charge.transfer && report.status.Successful? && report.txRef == Account(va)
        && report.naira;
      && end.handlers ==
           (if paid && va in st.accounts && Of(st.accounts[va]) !in st.wallets then map[0 := Releasing(charge)]
            else map[])
      && (if paid && Payable(st, va, charge.event.flwRef) then
            PaidIn(st.wallets, st.accounts[va], report.amount, Virtual(charge.event.flwRef), va, end.store.wallets)
            && end.store == st.(wallets := end.store.wallets)
          else end.store == st)
  {
    hide CreditCheckout, MethodLabel, PaidIn, CreditAccount;
    if va in st.accounts {
      AccountPays(st, va, report.amount, charge.event.flwRef);
    }
  }

  /** An uninterrupted first delivery about a virtual account: its owner is paid the reported amount exactly when
      the webhook claims a successful transfer, the provider's own record is of this account, successful and in
      naira, and the provider's reference is new to the wallet. Otherwise no wallet moves. No checkout's row ever
      does, and the marker stays unless the owner has no wallet to pay into. */
  lemma {:induction false} AccountDeliveredExactly(st: Store, va: nat, charge: Charge, report: Report)
    requires charge.event.txRef == Account(va) && charge.event !in st.markers
    ensures var end := Delivered(st, charge, report);
      var paid := charge.successful && charge.transfer && report.status.Successful? && report.txRef == Account(va)
        && report.naira;
      var failed := paid && va in st.accounts && Of(st.accounts[va]) !in st.wallets;
      && end.handlers == map[]
      && end.store == Store(end.store.wallets, st.rows, st.accounts,
           if failed then st.markers else st.markers + {charge.event})
      && (if paid && Payable(st, va, charge.event.flwRef) then
            PaidIn(st.wallets, st.accounts[va], report.amount, Virtual(charge.event.flwRef), va, end.store.wallets)
          else end.store.wallets == st.wallets)
  {
    hide Processed, Delivered, PaidIn, Reading, Verifying, Replying, Crashing, A.Attempt, Unrelated, CreditCheckout;
    hide CreditAccount, Payable;
    var st' := st.(markers := st.markers + {charge.event});
    assert Payable(st', va, charge.event.flwRef) == Payable(st, va, charge.event.flwRef) by {
      SamePayable(st, st', va, charge.event.flwRef);
    }
    DeliveredIsProcessed(st, charge, report);
    ProcessedAccount(st', va, charge, report);
  }

  lemma {:induction false} SamePayable(st: Store, st': Store, va: nat, flwRef: nat)
    requires st'.accounts == st.accounts && st'.wallets == st.wallets
    ensures Payable(st', va, flwRef) == Payable(st, va, flwRef)
  {
  }

  // ----- Steps among others ------------------------------------------------------------------------------------

  /** A reconciliation that finds the row no longer PENDING on its second look ends there. */
  lemma {:induction false} SecondLook(s: Site, h: nat)
    requires h in s.handlers && (s.handlers[h].Settling? || s.handlers[h].Failing?)
    requires !IsPending(s.store, s.handlers[h].row)
    ensures Next(s, Read(h)) == Site(s.store, s.handlers - {h})
  {
    hide A.Attempt, Committing, Verifying, Unrelated, Crashing, Replying;
  }

  /** A verified delivery does not look again: it pays and marks SUCCESS whatever the row has become. */
  lemma {:induction false} DeliveryPaysRegardless(s: Site, h: nat)
    requires h in s.handlers && s.handlers[h].Verified? && Unpaid(s.store, s.handlers[h].row)
    ensures var end := Next(s, Commit(h));
      var row := s.handlers[h].row;
      && end.handlers == s.handlers - {h}
      && PaidIn(s.store.wallets, s.store.rows[row].user, s.handlers[h].amount, Settled(s.handlers[h].tag, row), row,
           end.store.wallets)
      && end.store.rows == s.store.rows[row := s.store.rows[row].(status := Succeeded)]
  {
    hide A.Attempt, Reading, Verifying, Unrelated, Crashing, Replying, CreditCheckout, CreditAccount, PaidIn;
    CheckoutPays(s.store, s.handlers[h].row, s.handlers[h].amount, s.handlers[h].tag);
  }

  // ----- Every credit is reported ----------------------------------------------------------------------------

  /** A step in which the provider says that so much was paid, in naira, under this tx_ref. */
  predicate Attests(step: Step, txRef: TxRef, amount: int) {
    || (step.Verify? && step.report == Report(Successful, txRef, true, amount, step.report.paymentType))
    || (step.Reply? && step.answer.Found?
        && step.answer.report == Report(Successful, txRef, true, amount, step.answer.report.paymentType))
  }

  predicate Told(steps: seq<Step>, txRef: TxRef, amount: int) {
    exists k :: 0 <= k < |steps| && Attests(steps[k], txRef, amount)
  }

  predicate BackedPhase(steps: seq<Step>, phase: Phase) {
    match phase
    case AccountRead(charge, va) => charge.event.txRef == Account(va)
    case Verified(_, row, amount, _) => Told(steps, Checkout(row), amount)
    case AccountVerified(_, va, amount) => Told(steps, Account(va), amount)
    case Settling(row, amount, _) => Told(steps, Checkout(row), amount)
    case SettlingRead(row, amount, _) => Told(steps, Checkout(row), amount)
    case _ => true
  }

  predicate BackedEntry(steps: seq<Step>, st: Store, id: WalletId, e: Entry) {
    && (e.ref.Settled? ==> Told(steps, Checkout(e.ref.row), e.amount))
    && (e.ref.Virtual? ==>
         && e.kind.Credit? && e.sourceId.Row? && e.sourceId.id in st.accounts && id == Of(st.accounts[e.sourceId.id])
         && Told(steps, Account(e.sourceId.id), e.amount))
  }

  predicate BackedEntries(steps: seq<Step>, st: Store, id: WalletId)
    requires id in st.wallets
  {
    forall i :: 0 <= i < |st.wallets[id].entries| ==> BackedEntry(steps, st, id, st.wallets[id].entries[i])
  }

  ghost predicate BackedStore(steps: seq<Step>, st: Store) {
    forall id :: id in st.wallets ==> BackedEntries(steps, st, id)
  }

  ghost predicate Backed(steps: seq<Step>, s: Site) {
    BackedStore(steps, s.store) && forall h :: h in s.handlers ==> BackedPhase(steps, s.handlers[h])
  }

  lemma {:induction false} BackedOf(steps: seq<Step>, s: Site, h: nat)
    requires Backed(steps, s) && h in s.handlers
    ensures BackedPhase(steps, s.handlers[h]) && Backed(steps, Finish(s, h)) && BackedStore(steps, s.store)
  {
    hide BackedPhase, BackedStore;
  }

  lemma {:induction false} BackedFinish(steps: seq<Step>, s: Site, h: nat, st': Store)
    requires Backed(steps, s) && BackedStore(steps, st')
    ensures Backed(steps, Finish(s.(store := st'), h))
  {
    hide BackedPhase, BackedStore;
  }

  lemma {:induction false} BackedBecome(steps: seq<Step>, s: Site, h: nat, phase: Phase)
    requires Backed(steps, s) && BackedPhase(steps, phase)
    ensures Backed(steps, Become(s, h, phase))
  {
    hide BackedPhase, BackedStore;
  }

  /** Rows and markers say nothing about what backs an entry. */
  lemma {:induction false} SameBacking(steps: seq<Step>, st: Store, st': Store)
    requires BackedStore(steps, st) && st'.wallets == st.wallets && st'.accounts == st.accounts
    ensures BackedStore(steps, st')
  {
    hide Told;
    forall id | id in st'.wallets ensures BackedEntries(steps, st', id) {
      assert BackedEntries(steps, st, id);
    }
  }

  lemma {:induction false} BackedAppend(steps: seq<Step>, st: Store, id: WalletId, w': Wallet, e: Entry)
    requires BackedStore(steps, st) && id in st.wallets && w'.entries == st.wallets[id].entries + [e]
    requires BackedEntry(steps, st, id, e)
    ensures BackedStore(steps, st.(wallets := st.wallets[id := w']))
  {
    hide Told;
    var st' := st.(wallets := st.wallets[id := w']);
    forall o | o in st'.wallets ensures BackedEntries(steps, st', o) {
      assert BackedEntries(steps, st, o);
    }
  }

  lemma {:induction false} BackedCredit(steps: seq<Step>, st: Store, user: nat, amount: int, ref: Reference,
      source: nat, st': Store)
    requires BackedStore(steps, st) && CreditTo(st, user, amount, ref, source) == Success(st')
    requires ref.Settled? ==> Told(steps, Checkout(ref.row), amount)
    requires ref.Virtual? ==>
      source in st.accounts && user == st.accounts[source] && Told(steps, Account(source), amount)
    ensures BackedStore(steps, st')
  {
    hide CreditTo, BackedStore, Told;
    CreditToAppends(st, user, amount, ref, source, st');
    var es' := st'.wallets[Of(user)].entries;
    BackedAppend(steps, st, Of(user), st'.wallets[Of(user)], es'[|es'| - 1]);
  }

  lemma {:induction false} BackedCheckout(steps: seq<Step>, s: Site, h: nat, row: nat, amount: int, tag: Label)
    requires Backed(steps, s) && row in s.store.rows && Told(steps, Checkout(row), amount)
    requires CreditCheckout(s.store, row, amount, tag).Success?
    ensures Backed(steps, Finish(s.(store := CreditCheckout(s.store, row, amount, tag).value), h))
  {
    hide BackedStore, CreditTo, Finish, BackedPhase, Told;
    var user := s.store.rows[row].user;
    var paid := CreditTo(s.store, user, amount, Settled(tag, row), row).value;
    BackedCredit(steps, s.store, user, amount, Settled(tag, row), row, paid);
    CreditToAppends(s.store, user, amount, Settled(tag, row), row, paid);
    SameBacking(steps, paid, SetStatus(paid, row, Succeeded));
    BackedFinish(steps, s, h, CreditCheckout(s.store, row, amount, tag).value);
  }

  lemma {:induction false} BackedAccount(steps: seq<Step>, s: Site, h: nat, va: nat, amount: int, flwRef: nat)
    requires Backed(steps, s) && va in s.store.accounts && Told(steps, Account(va), amount)
    requires CreditAccount(s.store, va, amount, flwRef).Success?
    ensures Backed(steps, Finish(s.(store := CreditAccount(s.store, va, amount, flwRef).value), h))
  {
    hide BackedStore, CreditTo, Finish, BackedPhase, Told, HasReference;
    var st' := CreditAccount(s.store, va, amount, flwRef).value;
    if st' != s.store {
      BackedCredit(steps, s.store, s.store.accounts[va], amount, Virtual(flwRef), va, st');
    }
    BackedFinish(steps, s, h, st');
  }

  lemma {:induction false} BackedCommit(steps: seq<Step>, s: Site, h: nat)
    requires Backed(steps, s) && h in s.handlers
    ensures Backed(steps, Committing(s, h, s.handlers[h]))
  {
    hide Backed, BackedStore, Told, Become, Finish, CreditCheckout, CreditAccount;
    BackedOf(steps, s, h);
    match s.handlers[h]
    case Verified(charge, row, amount, tag) =>
      if row in s.store.rows && CreditCheckout(s.store, row, amount, tag).Success? {
        BackedCheckout(steps, s, h, row, amount, tag);
      } else {
        BackedBecome(steps, s, h, Releasing(charge));
      }
    case AccountVerified(charge, va, amount) =>
      if va in s.store.accounts && CreditAccount(s.store, va, amount, charge.event.flwRef).Success? {
        BackedAccount(steps, s, h, va, amount, charge.event.flwRef);
      } else {
        BackedBecome(steps, s, h, Releasing(charge));
      }
    case Mismatched(charge) =>
      SameBacking(steps, s.store, FailPending(s.store, charge.event.txRef));
      BackedFinish(steps, s, h, FailPending(s.store, charge.event.txRef));
    case Releasing(charge) =>
      var st' := s.store.(markers := s.store.markers - {charge.event});
      SameBacking(steps, s.store, st');
      BackedFinish(steps, s, h, st');
    case SettlingRead(row, amount, tag) =>
      if row in s.store.rows && CreditCheckout(s.store, row, amount, tag).Success? {
        BackedCheckout(steps, s, h, row, amount, tag);
      }
    case FailingRead(row) =>
      if row in s.store.rows {
        SameBacking(steps, s.store, SetStatus(s.store, row, Failed));
        BackedFinish(steps, s, h, SetStatus(s.store, row, Failed));
      }
    case _ =>
  }

  lemma {:induction false} BackedRead(steps: seq<Step>, s: Site, h: nat)
    requires Backed(steps, s) && h in s.handlers
    ensures Backed(steps, Reading(s, h, s.handlers[h]))
  {
    hide Backed, BackedStore, Told, Become, Finish;
    BackedOf(steps, s, h);
    BackedBecome(steps, s, h, ReadPhase(s, h, s.handlers[h]));
  }

  lemma {:induction false} BackedVerify(steps: seq<Step>, s: Site, k: nat, h: nat, report: Report)
    requires Good(s) && Backed(steps, s) && k < |steps| && steps[k] == Verify(h, report) && h in s.handlers
    ensures Backed(steps, Verifying(s, h, s.handlers[h], report))
  {
    hide Good, GoodStore, Backed, BackedStore, Become, Finish, MethodLabel, SettledType;
    BackedOf(steps, s, h);
    PhaseOf(s, h);
    match s.handlers[h]
    case RowRead(charge, row, amount) =>
      if VerifyCharge(report, Some(amount), charge.event.txRef).Some? {
        assert Attests(steps[k], Checkout(row), report.amount);
        BackedBecome(steps, s, h, Verified(charge, row, report.amount, MethodLabel(SettledType(charge, report))));
      } else {
        BackedBecome(steps, s, h, Mismatched(charge));
      }
    case AccountRead(charge, va) =>
      if VerifyCharge(report, None, charge.event.txRef).Some? {
        assert Attests(steps[k], Account(va), report.amount);
        BackedBecome(steps, s, h, AccountVerified(charge, va, report.amount));
      }
    case _ =>
  }

  lemma {:induction false} BackedReply(steps: seq<Step>, s: Site, k: nat, h: nat, answer: Answer)
    requires Backed(steps, s) && k < |steps| && steps[k] == Reply(h, answer) && h in s.handlers
    ensures Backed(steps, Replying(s, h, s.handlers[h], answer))
  {
    hide Backed, BackedStore, Become, Finish, MethodLabel;
    BackedOf(steps, s, h);
    match s.handlers[h]
    case Asked(row, amount) =>
      var decision := Decide(answer, row, amount);
      if decision.Settle? {
        assert Attests(steps[k], Checkout(row), decision.amount);
        BackedBecome(steps, s, h, Settling(row, decision.amount, decision.tag));
      } else {
        BackedBecome(steps, s, h, Failing(row));
      }
    case _ =>
  }

  lemma {:induction false} BackedOther(steps: seq<Step>, s: Site, id: WalletId, op: A.Op, w': Wallet)
    requires Backed(steps, s) && id in s.store.wallets && Unrelated(op)
    requires A.Attempt(s.store.wallets[id], op) == Success(w')
    ensures Backed(steps, s.(store := s.store.(wallets := s.store.wallets[id := w'])))
  {
    hide BackedStore, BackedPhase, Told, A.Attempt, Unrelated, HasKey;
    AttemptAppends(s.store.wallets[id], op, w');
    BackedAppend(steps, s.store, id, w', w'.entries[|s.store.wallets[id].entries|]);
  }

  lemma {:induction false} BackedMoves(steps: seq<Step>, s: Site, st': Store)
    requires Backed(steps, s) && st'.wallets == s.store.wallets && st'.accounts == s.store.accounts
    ensures Backed(steps, s.(store := st'))
  {
    hide BackedStore, BackedPhase, Told;
    SameBacking(steps, s.store, st');
  }

  lemma {:induction false} BackedNext(steps: seq<Step>, k: nat, s: Site)
    requires Good(s) && Backed(steps, s) && k < |steps|
    ensures Backed(steps, Next(s, steps[k]))
  {
    hide Good, Backed, Become, Finish, A.Attempt, Unrelated, Committing, Reading, Verifying, Replying, Told;
    match steps[k]
    case Other(id, op) =>
      if id in s.store.wallets && Unrelated(op) && A.Attempt(s.store.wallets[id], op).Success? {
        BackedOther(steps, s, id, op, A.Attempt(s.store.wallets[id], op).value);
      }
    case Initialize(row, user, amount) =>
      BackedMoves(steps, s, s.store.(rows := s.store.rows[row := FundingRow(user, amount, Pending)]));
    case Deliver(h, charge) =>
      var st' := s.store.(markers := s.store.markers + {charge.event});
      BackedMoves(steps, s, st');
      BackedBecome(steps, s.(store := st'), h, Received(charge));
    case Reconcile(h, row) =>
      if row in s.store.rows {
        BackedBecome(steps, s, h, Asked(row, s.store.rows[row].amount));
      }
    case Read(h) => if h in s.handlers { BackedRead(steps, s, h); }
    case Verify(h, report) => if h in s.handlers { BackedVerify(steps, s, k, h, report); }
    case Reply(h, answer) => if h in s.handlers { BackedReply(steps, s, k, h, answer); }
    case Commit(h) => if h in s.handlers { BackedCommit(steps, s, h); }
    case Crash(h) =>
      if h in s.handlers {
        BackedOf(steps, s, h);
        if ForWebhook(s.handlers[h]) {
          BackedBecome(steps, s, h, Releasing(s.handlers[h].charge));
        }
      }
  }

  lemma {:induction false} BackedRun(steps: seq<Step>, k: nat, s: Site)
    requires Good(s) && Backed(steps, s) && k <= |steps|
    ensures Backed(steps, Run(s, steps[k..]))
    decreases |steps| - k
  {
    hide Good, Backed, Next;
    if k < |steps| {
      assert steps[k..][0] == steps[k] && steps[k..][1..] == steps[k + 1..];
      NextKeeps(s, steps[k]);
      BackedNext(steps, k, s);
      BackedRun(steps, k + 1, Next(s, steps[k]));
    }
  }

  lemma {:induction false} FreshBacked(steps: seq<Step>, s: Site)
    requires Fresh(s)
    ensures Backed(steps, s)
  {
    hide Told, UniqueKeys;
    forall id | id in s.store.wallets ensures BackedEntries(steps, s.store, id) {
      assert Untouched(s.store.wallets[id].entries);
    }
  }

  /** After every run each entry that settles a checkout has its report among the steps: the provider said that
      exactly this amount was paid, in naira, for this checkout, to a delivery or to a reconciliation. So has each
      virtual account's entry, which credits the account's owner. */
  lemma {:induction false} EveryCreditIsReported(s: Site, steps: seq<Step>, id: WalletId, i: nat)
    requires Fresh(s) && id in Run(s, steps).store.wallets && i < |Run(s, steps).store.wallets[id].entries|
    ensures var st := Run(s, steps).store;
      var e := st.wallets[id].entries[i];
      && (e.ref.Settled? ==>
           exists k :: 0 <= k < |steps| && Attests(steps[k], Checkout(e.ref.row), e.amount))
      && (e.ref.Virtual? ==>
           && e.kind.Credit? && e.sourceId.Row? && e.sourceId.id in st.accounts
           && id == Of(st.accounts[e.sourceId.id])
           && exists k :: 0 <= k < |steps| && Attests(steps[k], Account(e.sourceId.id), e.amount))
  {
    hide Run, Fresh, Good, Tagged, Attests;
    FreshGood(s, 0, FundingCard);
    FreshBacked(steps, s);
    assert steps[0..] == steps;
    BackedRun(steps, 0, s);
    var st := Run(s, steps).store;
    assert BackedEntries(steps, st, id);
    assert BackedEntry(steps, st, id, st.wallets[id].entries[i]);
  }
}
