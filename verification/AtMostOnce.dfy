/** Whatever the interleaving, a payment is credited at most once per payment type its provider reports. */
module AtMostOnce {
  import opened Wrappers
  import opened Ledger
  import opened Settlement
  import A = Audit

  // ----- The invariant -----------------------------------------------------------------------------------

  /** A settlement's entry credits the row's own user, no less than the row asks, and the row is past PENDING. */
  predicate GoodEntry(st: Store, id: WalletId, e: Entry) {
    e.ref.Settled? ==>
      && e.ref.row in st.rows
      && var row := st.rows[e.ref.row];
      && id == Of(row.user) && !row.status.Pending?
      && e.kind.Credit? && e.amount >= row.amount
      && e.source.Transaction? && e.sourceId == Row(e.ref.row)
  }

  ghost predicate UniqueKeys(es: seq<Entry>) {
    forall i, j :: 0 <= i < j < |es| ==>
      !(es[i].ref == es[j].ref && es[i].source == es[j].source && es[i].sourceId == es[j].sourceId)
  }

  ghost predicate OneVirtual(es: seq<Entry>) {
    forall i, j :: 0 <= i < j < |es| && es[i].ref.Virtual? ==> es[j].ref != es[i].ref
  }

  predicate SettledIn(es: seq<Entry>, row: nat) {
    exists i :: 0 <= i < |es| && es[i].ref.Settled? && es[i].ref.row == row
  }

  predicate Credited(st: Store, row: nat) {
    row in st.rows && Of(st.rows[row].user) in st.wallets && SettledIn(st.wallets[Of(st.rows[row].user)].entries, row)
  }

  ghost predicate GoodLedger(st: Store, id: WalletId)
    requires id in st.wallets
  {
    var es := st.wallets[id].entries;
    UniqueKeys(es) && OneVirtual(es) && forall i :: 0 <= i < |es| ==> GoodEntry(st, id, es[i])
  }

  predicate GoodRow(st: Store, row: nat)
    requires row in st.rows
  {
    st.rows[row].amount > 0 && Of(st.rows[row].user) in st.wallets &&
      (st.rows[row].status.Succeeded? ==> Credited(st, row))
  }

  predicate GoodPhase(st: Store, phase: Phase) {
    match phase
    case Received(_) => true
    case RowRead(charge, row, amount) =>
      charge.event.txRef == Checkout(row) && row in st.rows && amount == st.rows[row].amount
    case AccountRead(charge, va) => va in st.accounts
    case Verified(charge, row, amount, _) =>
      charge.event.txRef == Checkout(row) && row in st.rows && amount == st.rows[row].amount
    case AccountVerified(charge, va, amount) => va in st.accounts
    case Mismatched(_) => true
    case Releasing(_) => true
    case Asked(row, amount) => row in st.rows && amount == st.rows[row].amount
    case Settling(row, amount, _) => row in st.rows && amount >= st.rows[row].amount
    case SettlingRead(row, amount, _) => row in st.rows && amount >= st.rows[row].amount
    case Failing(row) => row in st.rows
    case FailingRead(row) => row in st.rows
  }

  ghost predicate GoodStore(st: Store) {
    && (forall id :: id in st.wallets ==> GoodLedger(st, id))
    && (forall row :: row in st.rows ==> GoodRow(st, row))
  }

  /** A delivery in progress holds its event's marker, so no event is ever handled twice at once. */
  ghost predicate Marked(s: Site) {
    && (forall h :: h in s.handlers && ForWebhook(s.handlers[h]) ==> s.handlers[h].charge.event in s.store.markers)
    && (forall h, g ::
          h in s.handlers && g in s.handlers && h != g && ForWebhook(s.handlers[h]) && ForWebhook(s.handlers[g]) ==>
          s.handlers[h].charge.event != s.handlers[g].charge.event)
  }

  ghost predicate Good(s: Site) {
    && GoodStore(s.store)
    && (forall h :: h in s.handlers ==> GoodPhase(s.store, s.handlers[h]))
    && Marked(s)
  }

  // ----- Writes ------------------------------------------------------------------------------------------

  /** Every writer appends one entry whose key is new. */
  lemma {:induction false} AttemptAppends(w: Wallet, op: A.Op, w': Wallet)
    requires A.Attempt(w, op) == Success(w')
    ensures |w'.entries| == |w.entries| + 1
    ensures var e := w'.entries[|w.entries|];
      && w'.entries == w.entries + [e]
      && !HasKey(w.entries, e.ref, e.source, e.sourceId)
      && (Unrelated(op) ==> !e.ref.Settled? && !e.ref.Virtual?)
  {
    hide HasKey, Balance, Reserved, Available;
  }

  lemma {:induction false} KeysAfter(es: seq<Entry>, e: Entry)
    requires UniqueKeys(es) && !HasKey(es, e.ref, e.source, e.sourceId)
    ensures UniqueKeys(es + [e])
  {
  }

  lemma {:induction false} VirtualAfter(es: seq<Entry>, e: Entry)
    requires OneVirtual(es) && (e.ref.Virtual? ==> !HasReference(es, e.ref))
    ensures OneVirtual(es + [e])
  {
  }

  /** Statuses may move; nothing else about a row does. */
  ghost predicate SameRows(st: Store, st': Store) {
    && st.rows.Keys == st'.rows.Keys && st'.accounts == st.accounts
    && forall r :: r in st.rows ==>
         && st'.rows[r].user == st.rows[r].user && st'.rows[r].amount == st.rows[r].amount
         && (st'.rows[r].status.Pending? ==> st.rows[r].status.Pending?)
  }

  /** One wallet got one more entry, and statuses moved no further than it allows. */
  ghost predicate Appended(st: Store, id: WalletId, e: Entry, st': Store) {
    && id in st.wallets && st'.wallets.Keys == st.wallets.Keys
    && st'.wallets[id].entries == st.wallets[id].entries + [e]
    && (forall o :: o in st.wallets && o != id ==> st'.wallets[o].entries == st.wallets[o].entries)
    && !HasKey(st.wallets[id].entries, e.ref, e.source, e.sourceId)
    && (e.ref.Virtual? ==> !HasReference(st.wallets[id].entries, e.ref))
    && SameRows(st, st')
    && GoodEntry(st', id, e)
  }

  lemma {:induction false} CreditedStays(st: Store, id: WalletId, e: Entry, st': Store, row: nat)
    requires Appended(st, id, e, st') && Credited(st, row)
    ensures Credited(st', row)
  {
    var u := Of(st.rows[row].user);
    var es, es' := st.wallets[u].entries, st'.wallets[u].entries;
    var i :| 0 <= i < |es| && es[i].ref.Settled? && es[i].ref.row == row;
    assert es'[i] == es[i];
  }

  lemma {:induction false} AppendKeepsLedgers(st: Store, id: WalletId, e: Entry, st': Store, o: WalletId)
    requires GoodStore(st) && Appended(st, id, e, st') && o in st'.wallets
    ensures GoodLedger(st', o)
  {
    hide HasKey, HasReference, GoodRow, UniqueKeys, OneVirtual;
    assert GoodLedger(st, o);
    var es, es' := st.wallets[o].entries, st'.wallets[o].entries;
    if o == id {
      KeysAfter(es, e);
      VirtualAfter(es, e);
    }
    forall i | 0 <= i < |es'| ensures GoodEntry(st', o, es'[i]) {
      assert i < |es| ==> GoodEntry(st, o, es[i]) && es'[i] == es[i];
    }
  }

  lemma {:induction false} AppendKeeps(st: Store, id: WalletId, e: Entry, st': Store)
    requires GoodStore(st) && Appended(st, id, e, st')
    requires forall r :: r in st'.rows && st'.rows[r].status.Succeeded? ==>
      st.rows[r].status.Succeeded? || Credited(st', r)
    ensures GoodStore(st')
  {
    hide GoodLedger, Credited, HasKey, HasReference;
    forall o | o in st'.wallets ensures GoodLedger(st', o) {
      AppendKeepsLedgers(st, id, e, st', o);
    }
    forall r | r in st'.rows ensures GoodRow(st', r) {
      assert GoodRow(st, r);
      if st.rows[r].status.Succeeded? {
        CreditedStays(st, id, e, st', r);
      }
    }
  }

  /** Only statuses moved, none of them to SUCCESS. */
  lemma {:induction false} StatusKeeps(st: Store, st': Store)
    requires GoodStore(st) && SameRows(st, st') && st'.wallets == st.wallets
    requires forall r :: r in st'.rows && st'.rows[r].status.Succeeded? ==> st.rows[r].status.Succeeded?
    ensures GoodStore(st')
  {
    hide UniqueKeys, OneVirtual, SettledIn;
    forall o | o in st'.wallets ensures GoodLedger(st', o) {
      assert GoodLedger(st, o);
      var es := st.wallets[o].entries;
      forall i | 0 <= i < |es| ensures GoodEntry(st', o, es[i]) {
        assert GoodEntry(st, o, es[i]);
      }
    }
    forall r | r in st'.rows ensures GoodRow(st', r) {
      assert GoodRow(st, r);
    }
  }

  lemma {:induction false} PhasesKept(s: Site, st': Store)
    requires Good(s) && SameRows(s.store, st')
    ensures forall h :: h in s.handlers ==> GoodPhase(st', s.handlers[h])
  {
    hide GoodStore, Marked;
    forall h | h in s.handlers ensures GoodPhase(st', s.handlers[h]) {
      assert GoodPhase(s.store, s.handlers[h]);
    }
  }

  // ----- Each transaction --------------------------------------------------------------------------------

  lemma {:induction false} CreditToAppends(st: Store, user: nat, amount: int, ref: Reference, source: nat, st': Store)
    requires CreditTo(st, user, amount, ref, source) == Success(st')
    ensures Of(user) in st.wallets && st'.wallets.Keys == st.wallets.Keys && st'.wallets[Of(user)].entries != []
    ensures var es := st.wallets[Of(user)].entries;
      var es' := st'.wallets[Of(user)].entries;
      var e := es'[|es'| - 1];
      && es' == es + [e]
      && e.ref == ref && e.kind.Credit? && e.amount == amount && e.source.Transaction? && e.sourceId == Row(source)
      && !HasKey(es, ref, Transaction, Row(source))
    ensures st' == st.(wallets := st.wallets[Of(user) := st'.wallets[Of(user)]])
    ensures st'.wallets[Of(user)].buckets == st.wallets[Of(user)].buckets
    ensures Balance(st'.wallets[Of(user)]) == Balance(st.wallets[Of(user)]) + amount
  {
    hide HasKey;
  }

  lemma {:induction false} CheckoutKeeps(st: Store, row: nat, amount: int, tag: Label, st': Store)
    requires GoodStore(st) && row in st.rows && amount >= st.rows[row].amount
    requires CreditCheckout(st, row, amount, tag) == Success(st')
    ensures GoodStore(st') && SameRows(st, st') && st'.markers == st.markers
    ensures Credited(st', row) && st'.rows[row].status.Succeeded?
    ensures forall r :: r != row && r in st.rows ==> st'.rows[r] == st.rows[r]
  {
    hide HasKey, GoodStore, CreditTo, SettledIn;
    var user := st.rows[row].user;
    var paid := CreditTo(st, user, amount, Settled(tag, row), row).value;
    CreditToAppends(st, user, amount, Settled(tag, row), row, paid);
    var es' := st'.wallets[Of(user)].entries;
    var e := es'[|es'| - 1];
    InLedger(es', |es'| - 1, row);
    AppendKeeps(st, Of(user), e, st');
  }

  lemma {:induction false} InLedger(es: seq<Entry>, i: nat, row: nat)
    requires i < |es| && es[i].ref.Settled? && es[i].ref.row == row
    ensures SettledIn(es, row)
  {
  }

  lemma {:induction false} AccountKeeps(st: Store, va: nat, amount: int, flwRef: nat, st': Store)
    requires GoodStore(st) && va in st.accounts && CreditAccount(st, va, amount, flwRef) == Success(st')
    ensures GoodStore(st') && SameRows(st, st') && st'.markers == st.markers && st'.rows == st.rows
  {
    hide HasKey, HasReference, GoodStore, CreditTo;
    var user := st.accounts[va];
    if st' != st {
      CreditToAppends(st, user, amount, Virtual(flwRef), va, st');
      var es' := st'.wallets[Of(user)].entries;
      AppendKeeps(st, Of(user), es'[|es'| - 1], st');
    }
  }

  lemma {:induction false} OtherKeeps(st: Store, id: WalletId, op: A.Op, w': Wallet)
    requires GoodStore(st) && id in st.wallets && Unrelated(op) && A.Attempt(st.wallets[id], op) == Success(w')
    ensures GoodStore(st.(wallets := st.wallets[id := w']))
  {
    hide HasKey, HasReference, GoodStore, A.Attempt, Unrelated;
    AttemptAppends(st.wallets[id], op, w');
    AppendKeeps(st, id, w'.entries[|st.wallets[id].entries|], st.(wallets := st.wallets[id := w']));
  }

  lemma {:induction false} InitializeKeeps(st: Store, row: nat, user: nat, amount: int)
    requires GoodStore(st) && row !in st.rows && amount > 0 && Of(user) in st.wallets
    ensures GoodStore(st.(rows := st.rows[row := FundingRow(user, amount, Pending)]))
  {
    hide UniqueKeys, OneVirtual, SettledIn;
    var st' := st.(rows := st.rows[row := FundingRow(user, amount, Pending)]);
    forall o | o in st'.wallets ensures GoodLedger(st', o) {
      assert GoodLedger(st, o);
      var es := st.wallets[o].entries;
      forall i | 0 <= i < |es| ensures GoodEntry(st', o, es[i]) {
        assert GoodEntry(st, o, es[i]);
      }
    }
    forall r | r in st'.rows ensures GoodRow(st', r) {
      assert r != row ==> GoodRow(st, r);
    }
  }

  // ----- Each step ---------------------------------------------------------------------------------------

  lemma {:induction false} FinishKeeps(s: Site, h: nat, st': Store)
    requires Good(s) && GoodStore(st') && SameRows(s.store, st')
    requires forall g :: g in s.handlers && g != h && ForWebhook(s.handlers[g]) ==>
      s.handlers[g].charge.event in st'.markers
    ensures Good(Finish(s.(store := st'), h))
  {
    hide GoodStore, GoodPhase, SameRows;
    PhasesKept(s, st');
  }

  lemma {:induction false} BecomeKeeps(s: Site, h: nat, phase: Phase)
    requires Good(s) && h in s.handlers && GoodPhase(s.store, phase)
    requires ForWebhook(phase) ==> ForWebhook(s.handlers[h]) && phase.charge.event == s.handlers[h].charge.event
    ensures Good(Become(s, h, phase))
  {
    hide GoodStore, GoodPhase;
  }

  lemma {:induction false} ReadKeeps(s: Site, h: nat)
    requires Good(s) && h in s.handlers
    ensures Good(Reading(s, h, s.handlers[h]))
  {
    hide Good, GoodStore, Marked, Become, Finish;
    var phase := s.handlers[h];
    PhaseOf(s, h);
    var s' := Reading(s, h, phase);
    if s' == Finish(s, h) {
      StoreKept(s, h);
    } else if s' != s {
      BecomeKeeps(s, h, ReadPhase(s, h, phase));
    }
  }

  /** The phase a successful read leads to. */
  ghost function ReadPhase(s: Site, h: nat, phase: Phase): (next: Phase)
    ensures var r := Reading(s, h, phase);
      r == s || r == Finish(s, h) || r == Become(s, h, next)
    ensures GoodPhase(s.store, phase) ==> GoodPhase(s.store, next)
    ensures ForWebhook(next) <==> ForWebhook(phase)
    ensures ForWebhook(next) ==> next.charge == phase.charge
  {
    match phase
    case Received(charge) =>
      var txRef := charge.event.txRef;
      if !charge.successful then Mismatched(charge)
      else if charge.transfer && txRef.Account? && txRef.va in s.store.accounts then AccountRead(charge, txRef.va)
      else if txRef.Checkout? && IsPending(s.store, txRef.row) then
        RowRead(charge, txRef.row, s.store.rows[txRef.row].amount)
      else phase
    case Settling(row, amount, tag) => SettlingRead(row, amount, tag)
    case Failing(row) => FailingRead(row)
    case _ => phase
  }

  lemma {:induction false} PhaseOf(s: Site, h: nat)
    requires Good(s) && h in s.handlers
    ensures GoodPhase(s.store, s.handlers[h]) && GoodStore(s.store)
    ensures ForWebhook(s.handlers[h]) ==> s.handlers[h].charge.event in s.store.markers
  {
    hide GoodStore, GoodPhase;
  }

  lemma {:induction false} StoreKept(s: Site, h: nat)
    requires Good(s)
    ensures Good(Finish(s, h))
  {
    hide GoodStore, GoodPhase;
    assert s.(store := s.store) == s;
    FinishKeeps(s, h, s.store);
  }

  lemma {:induction false} VerifyKeeps(s: Site, h: nat, report: Report)
    requires Good(s) && h in s.handlers
    ensures Good(Verifying(s, h, s.handlers[h], report))
  {
    hide Good, GoodStore, Become, Finish;
    PhaseOf(s, h);
    match s.handlers[h]
    case RowRead(charge, row, amount) =>
      if VerifyCharge(report, Some(amount), charge.event.txRef).Some? {
        BecomeKeeps(s, h, Verified(charge, row, amount, MethodLabel(SettledType(charge, report))));
      } else {
        BecomeKeeps(s, h, Mismatched(charge));
      }
    case AccountRead(charge, va) =>
      if VerifyCharge(report, None, charge.event.txRef).Some? {
        BecomeKeeps(s, h, AccountVerified(charge, va, report.amount));
      } else {
        StoreKept(s, h);
      }
    case _ =>
  }

  lemma {:induction false} ReplyKeeps(s: Site, h: nat, answer: Answer)
    requires Good(s) && h in s.handlers
    ensures Good(Replying(s, h, s.handlers[h], answer))
  {
    hide Good, GoodStore, Become, Finish;
    PhaseOf(s, h);
    match s.handlers[h]
    case Asked(row, amount) =>
      var decision := Decide(answer, row, amount);
      if decision.Settle? {
        BecomeKeeps(s, h, Settling(row, decision.amount, decision.tag));
      } else if decision.MarkFailed? {
        BecomeKeeps(s, h, Failing(row));
      } else {
        StoreKept(s, h);
      }
    case _ =>
  }

  lemma {:induction false} OthersMarked(s: Site, h: nat)
    requires Good(s) && h in s.handlers
    ensures forall g :: g in s.handlers && g != h && ForWebhook(s.handlers[g]) ==>
      && s.handlers[g].charge.event in s.store.markers
      && (ForWebhook(s.handlers[h]) ==> s.handlers[g].charge.event != s.handlers[h].charge.event)
  {
    hide GoodStore, GoodPhase;
  }

  /** Committing marks nothing SUCCESS without crediting it in the same transaction. */
  lemma {:induction false} CommitKeeps(s: Site, h: nat)
    requires Good(s) && h in s.handlers
    ensures Good(Committing(s, h, s.handlers[h]))
  {
    hide Good, GoodStore, Finish, Become, CreditCheckout, CreditAccount, SameRows, Credited;
    PhaseOf(s, h);
    OthersMarked(s, h);
    match s.handlers[h]
    case Verified(charge, row, amount, tag) =>
      if CreditCheckout(s.store, row, amount, tag).Success? {
        CheckoutKeeps(s.store, row, amount, tag, CreditCheckout(s.store, row, amount, tag).value);
        FinishKeeps(s, h, CreditCheckout(s.store, row, amount, tag).value);
      } else {
        BecomeKeeps(s, h, Releasing(charge));
      }
    case AccountVerified(charge, va, amount) =>
      var credited := CreditAccount(s.store, va, amount, charge.event.flwRef);
      if credited.Success? {
        AccountKeeps(s.store, va, amount, charge.event.flwRef, credited.value);
        FinishKeeps(s, h, credited.value);
      } else {
        BecomeKeeps(s, h, Releasing(charge));
      }
    case Mismatched(charge) =>
      FailPendingKeeps(s.store, charge.event.txRef);
      FinishKeeps(s, h, FailPending(s.store, charge.event.txRef));
    case Releasing(charge) =>
      ReleaseKeeps(s.store, charge.event);
      FinishKeeps(s, h, s.store.(markers := s.store.markers - {charge.event}));
    case SettlingRead(row, amount, tag) =>
      if CreditCheckout(s.store, row, amount, tag).Success? {
        CheckoutKeeps(s.store, row, amount, tag, CreditCheckout(s.store, row, amount, tag).value);
        FinishKeeps(s, h, CreditCheckout(s.store, row, amount, tag).value);
      } else {
        StoreKept(s, h);
      }
    case FailingRead(row) =>
      FailedKeeps(s.store, row);
      FinishKeeps(s, h, SetStatus(s.store, row, Failed));
    case _ =>
  }

  lemma {:induction false} FailedKeeps(st: Store, row: nat)
    requires GoodStore(st) && row in st.rows
    ensures GoodStore(SetStatus(st, row, Failed)) && SameRows(st, SetStatus(st, row, Failed))
  {
    hide GoodStore;
    StatusKeeps(st, SetStatus(st, row, Failed));
  }

  lemma {:induction false} FailPendingKeeps(st: Store, txRef: TxRef)
    requires GoodStore(st)
    ensures GoodStore(FailPending(st, txRef)) && SameRows(st, FailPending(st, txRef))
    ensures FailPending(st, txRef).markers == st.markers
  {
    hide GoodStore;
    if txRef.Checkout? && IsPending(st, txRef.row) {
      FailedKeeps(st, txRef.row);
    }
  }

  lemma {:induction false} ReleaseKeeps(st: Store, event: Event)
    requires GoodStore(st)
    ensures var st' := st.(markers := st.markers - {event}); GoodStore(st') && SameRows(st, st')
  {
    hide GoodStore;
    StatusKeeps(st, st.(markers := st.markers - {event}));
  }

  lemma {:induction false} CrashKeeps(s: Site, h: nat)
    requires Good(s) && h in s.handlers
    ensures Good(Crashing(s, h, s.handlers[h]))
  {
    hide Good, GoodStore, Finish, Become;
    if ForWebhook(s.handlers[h]) && !s.handlers[h].Releasing? {
      BecomeKeeps(s, h, Releasing(s.handlers[h].charge));
    } else {
      StoreKept(s, h);
    }
  }

  lemma {:induction false} StartKeeps(s: Site, st': Store, h: nat, phase: Phase)
    requires Good(s) && h !in s.handlers && GoodStore(st') && SameRows(s.store, st') && GoodPhase(st', phase)
    requires ForWebhook(phase) ==> phase.charge.event !in s.store.markers && phase.charge.event in st'.markers
    requires s.store.markers <= st'.markers
    ensures Good(Become(s.(store := st'), h, phase))
  {
    hide GoodStore, GoodPhase, SameRows;
    PhasesKept(s, st');
  }

  lemma {:induction false} StoreMoves(s: Site, st': Store)
    requires Good(s) && GoodStore(st') && st'.markers == s.store.markers
    requires st'.accounts == s.store.accounts
    requires forall r :: r in s.store.rows ==> r in st'.rows && st'.rows[r] == s.store.rows[r]
    ensures Good(s.(store := st'))
  {
    hide GoodStore;
    forall h | h in s.handlers ensures GoodPhase(st', s.handlers[h]) {
      assert GoodPhase(s.store, s.handlers[h]);
    }
    hide GoodPhase;
  }

  lemma {:induction false} DeliverKeeps(s: Site, h: nat, charge: Charge)
    requires Good(s) && h !in s.handlers && charge.event !in s.store.markers
    ensures Good(Become(s.(store := s.store.(markers := s.store.markers + {charge.event})), h, Received(charge)))
  {
    hide GoodStore, SameRows, Become, Marked;
    var st' := s.store.(markers := s.store.markers + {charge.event});
    StatusKept(s.store, st');
    StartKeeps(s, st', h, Received(charge));
  }

  lemma {:induction false} StatusKept(st: Store, st': Store)
    requires GoodStore(st) && st' == st.(markers := st'.markers)
    ensures GoodStore(st') && SameRows(st, st')
  {
    hide GoodStore;
    StatusKeeps(st, st');
  }

  lemma {:induction false} ReconcileKeeps(s: Site, h: nat, row: nat)
    requires Good(s) && h !in s.handlers && IsPending(s.store, row)
    ensures Good(Become(s, h, Asked(row, s.store.rows[row].amount)))
  {
    hide GoodStore, Become, Marked;
    assert s.(store := s.store) == s;
    StartKeeps(s, s.store, h, Asked(row, s.store.rows[row].amount));
  }

  lemma {:induction false} NextKeeps(s: Site, step: Step)
    requires Good(s)
    ensures Good(Next(s, step))
  {
    hide Good, GoodStore, Reading, Verifying, Replying, Committing, Crashing, Become, A.Attempt, Unrelated;
    match step
    case Other(id, op) =>
      if id in s.store.wallets && Unrelated(op) && A.Attempt(s.store.wallets[id], op).Success? {
        var w' := A.Attempt(s.store.wallets[id], op).value;
        StoreOf(s);
        OtherKeeps(s.store, id, op, w');
        StoreMoves(s, s.store.(wallets := s.store.wallets[id := w']));
      }
    case Initialize(row, user, amount) =>
      if row !in s.store.rows && amount > 0 && Of(user) in s.store.wallets {
        StoreOf(s);
        InitializeKeeps(s.store, row, user, amount);
        StoreMoves(s, s.store.(rows := s.store.rows[row := FundingRow(user, amount, Pending)]));
      }
    case Deliver(h, charge) =>
      if h !in s.handlers && charge.event !in s.store.markers {
        DeliverKeeps(s, h, charge);
      }
    case Reconcile(h, row) =>
      if h !in s.handlers && IsPending(s.store, row) {
        ReconcileKeeps(s, h, row);
      }
    case Read(h) => if h in s.handlers { ReadKeeps(s, h); }
    case Verify(h, report) => if h in s.handlers { VerifyKeeps(s, h, report); }
    case Reply(h, answer) => if h in s.handlers { ReplyKeeps(s, h, answer); }
    case Commit(h) => if h in s.handlers { CommitKeeps(s, h); }
    case Crash(h) => if h in s.handlers { CrashKeeps(s, h); }
  }

  lemma {:induction false} StoreOf(s: Site)
    requires Good(s)
    ensures GoodStore(s.store)
  {
  }

  lemma {:induction false} RunKeeps(s: Site, steps: seq<Step>)
    requires Good(s)
    ensures Good(Run(s, steps))
    decreases |steps|
  {
    hide Good, Next;
    if |steps| > 0 {
      NextKeeps(s, steps[0]);
      RunKeeps(Next(s, steps[0]), steps[1..]);
    }
  }

  // ----- One payment type --------------------------------------------------------------------------------

  /** Everything the provider says about a row, in this step, is that payment type. */
  predicate Says(step: Step, row: nat, tag: Label) {
    match step
    case Deliver(_, charge) => charge.event.txRef == Checkout(row) ==> MethodLabel(charge.paymentType) == tag
    case Verify(_, report) =>
      report.txRef == Checkout(row) && report.paymentType.Some? ==> MethodLabel(report.paymentType) == tag
    case Reply(_, answer) =>
      answer.Found? && answer.report.txRef == Checkout(row) ==> MethodLabel(answer.report.paymentType) == tag
    case _ => true
  }

  predicate OneType(steps: seq<Step>, row: nat, tag: Label) {
    forall i :: 0 <= i < |steps| ==> Says(steps[i], row, tag)
  }

  predicate TaggedPhase(phase: Phase, row: nat, tag: Label) {
    && (ForWebhook(phase) && phase.charge.event.txRef == Checkout(row) ==> MethodLabel(phase.charge.paymentType) == tag)
    && (phase.Verified? && phase.row == row ==> phase.tag == tag)
    && (phase.Settling? && phase.row == row ==> phase.tag == tag)
    && (phase.SettlingRead? && phase.row == row ==> phase.tag == tag)
  }

  predicate TaggedEntries(es: seq<Entry>, row: nat, tag: Label) {
    forall i :: 0 <= i < |es| && es[i].ref.Settled? && es[i].ref.row == row ==> es[i].ref.channel == tag
  }

  ghost predicate Tagged(s: Site, row: nat, tag: Label) {
    && (forall h :: h in s.handlers ==> TaggedPhase(s.handlers[h], row, tag))
    && (forall id :: id in s.store.wallets ==> TaggedEntries(s.store.wallets[id].entries, row, tag))
  }

  lemma {:induction false} TaggedFinish(s: Site, h: nat, st': Store, row: nat, tag: Label)
    requires Tagged(s, row, tag)
    requires forall id :: id in st'.wallets ==> TaggedEntries(st'.wallets[id].entries, row, tag)
    ensures Tagged(Finish(s.(store := st'), h), row, tag)
  {
    hide TaggedPhase, TaggedEntries;
  }

  lemma {:induction false} TaggedBecome(s: Site, h: nat, phase: Phase, row: nat, tag: Label)
    requires Tagged(s, row, tag) && TaggedPhase(phase, row, tag)
    ensures Tagged(Become(s, h, phase), row, tag)
  {
    hide TaggedPhase, TaggedEntries;
  }

  lemma {:induction false} TaggedOf(s: Site, h: nat, row: nat, tag: Label)
    requires Tagged(s, row, tag) && h in s.handlers
    ensures TaggedPhase(s.handlers[h], row, tag)
    ensures Tagged(Finish(s, h), row, tag)
  {
    hide TaggedPhase, TaggedEntries;
  }

  lemma {:induction false} TaggedCredit(st: Store, user: nat, amount: int, ref: Reference, source: nat, st': Store,
      row: nat, tag: Label)
    requires forall id :: id in st.wallets ==> TaggedEntries(st.wallets[id].entries, row, tag)
    requires CreditTo(st, user, amount, ref, source) == Success(st')
    requires ref.Settled? && ref.row == row ==> ref.channel == tag
    ensures forall id :: id in st'.wallets ==> TaggedEntries(st'.wallets[id].entries, row, tag)
  {
    hide CreditTo;
    CreditToAppends(st, user, amount, ref, source, st');
    hide HasKey, Balance;
    assert TaggedEntries(st.wallets[Of(user)].entries, row, tag);
    forall id | id in st'.wallets ensures TaggedEntries(st'.wallets[id].entries, row, tag) {
      assert TaggedEntries(st.wallets[id].entries, row, tag);
    }
  }

  lemma {:induction false} TaggedCommit(s: Site, h: nat, row: nat, tag: Label)
    requires Tagged(s, row, tag) && h in s.handlers
    ensures Tagged(Committing(s, h, s.handlers[h]), row, tag)
  {
    hide Tagged, CreditTo, Become, Finish, HasReference;
    TaggedOf(s, h, row, tag);
    TaggedStore(s, row, tag);
    match s.handlers[h]
    case Verified(charge, r, amount, t) =>
      if r in s.store.rows && CreditCheckout(s.store, r, amount, t).Success? {
        TaggedCheckout(s, h, r, amount, t, row, tag);
      } else {
        TaggedBecome(s, h, Releasing(charge), row, tag);
      }
    case AccountVerified(charge, va, amount) =>
      if va in s.store.accounts && CreditAccount(s.store, va, amount, charge.event.flwRef).Success? {
        var st' := CreditAccount(s.store, va, amount, charge.event.flwRef).value;
        if st' != s.store {
          TaggedCredit(s.store, s.store.accounts[va], amount, Virtual(charge.event.flwRef), va, st', row, tag);
        }
        TaggedFinish(s, h, st', row, tag);
      } else {
        TaggedBecome(s, h, Releasing(charge), row, tag);
      }
    case Mismatched(charge) => TaggedFinish(s, h, FailPending(s.store, charge.event.txRef), row, tag);
    case Releasing(charge) => TaggedFinish(s, h, s.store.(markers := s.store.markers - {charge.event}), row, tag);
    case SettlingRead(r, amount, t) =>
      if r in s.store.rows && CreditCheckout(s.store, r, amount, t).Success? {
        TaggedCheckout(s, h, r, amount, t, row, tag);
      }
    case FailingRead(r) =>
      if r in s.store.rows {
        TaggedFinish(s, h, SetStatus(s.store, r, Failed), row, tag);
      }
    case _ =>
  }

  lemma {:induction false} TaggedStore(s: Site, row: nat, tag: Label)
    requires Tagged(s, row, tag)
    ensures forall id :: id in s.store.wallets ==> TaggedEntries(s.store.wallets[id].entries, row, tag)
  {
    hide TaggedPhase, TaggedEntries;
  }

  lemma {:induction false} TaggedCheckout(s: Site, h: nat, r: nat, amount: int, t: Label, row: nat, tag: Label)
    requires Tagged(s, row, tag) && r in s.store.rows && (r == row ==> t == tag)
    requires CreditCheckout(s.store, r, amount, t).Success?
    ensures Tagged(Finish(s.(store := CreditCheckout(s.store, r, amount, t).value), h), row, tag)
  {
    hide Tagged, CreditTo, Finish, TaggedEntries;
    TaggedStore(s, row, tag);
    var user := s.store.rows[r].user;
    TaggedCredit(s.store, user, amount, Settled(t, r), r, CreditTo(s.store, user, amount, Settled(t, r), r).value,
      row, tag);
    TaggedFinish(s, h, CreditCheckout(s.store, r, amount, t).value, row, tag);
  }

  lemma {:induction false} TaggedNext(s: Site, step: Step, row: nat, tag: Label)
    requires Good(s) && Tagged(s, row, tag) && Says(step, row, tag)
    ensures Tagged(Next(s, step), row, tag)
  {
    hide Good, Tagged, Become, Finish, A.Attempt, Unrelated, Committing;
    match step
    case Other(id, op) =>
      if id in s.store.wallets && Unrelated(op) && A.Attempt(s.store.wallets[id], op).Success? {
        TaggedOther(s, id, op, A.Attempt(s.store.wallets[id], op).value, row, tag);
      }
    case Initialize(r, user, amount) =>
      TaggedRows(s, s.store.rows[r := FundingRow(user, amount, Pending)], row, tag);
    case Deliver(h, charge) =>
      TaggedMarkers(s, s.store.markers + {charge.event}, row, tag);
      TaggedBecome(s.(store := s.store.(markers := s.store.markers + {charge.event})), h, Received(charge), row, tag);
    case Reconcile(h, r) =>
      if r in s.store.rows {
        TaggedBecome(s, h, Asked(r, s.store.rows[r].amount), row, tag);
      }
    case Read(h) =>
      if h in s.handlers {
        TaggedOf(s, h, row, tag);
        TaggedBecome(s, h, ReadPhase(s, h, s.handlers[h]), row, tag);
      }
    case Verify(h, report) => if h in s.handlers { TaggedVerify(s, h, report, row, tag); }
    case Reply(h, answer) => if h in s.handlers { TaggedReply(s, h, answer, row, tag); }
    case Commit(h) => if h in s.handlers { TaggedCommit(s, h, row, tag); }
    case Crash(h) =>
      if h in s.handlers {
        TaggedOf(s, h, row, tag);
        if ForWebhook(s.handlers[h]) {
          TaggedBecome(s, h, Releasing(s.handlers[h].charge), row, tag);
        }
      }
  }

  lemma {:induction false} TaggedOther(s: Site, id: WalletId, op: A.Op, w': Wallet, row: nat, tag: Label)
    requires Tagged(s, row, tag) && id in s.store.wallets && Unrelated(op)
    requires A.Attempt(s.store.wallets[id], op) == Success(w')
    ensures Tagged(s.(store := s.store.(wallets := s.store.wallets[id := w'])), row, tag)
  {
    hide A.Attempt, Unrelated, TaggedPhase, HasKey;
    AttemptAppends(s.store.wallets[id], op, w');
    assert TaggedEntries(s.store.wallets[id].entries, row, tag);
  }

  lemma {:induction false} TaggedRows(s: Site, rows: map<nat, FundingRow>, row: nat, tag: Label)
    requires Tagged(s, row, tag)
    ensures Tagged(s.(store := s.store.(rows := rows)), row, tag)
  {
    hide TaggedPhase, TaggedEntries;
  }

  lemma {:induction false} TaggedMarkers(s: Site, markers: set<Event>, row: nat, tag: Label)
    requires Tagged(s, row, tag)
    ensures Tagged(s.(store := s.store.(markers := markers)), row, tag)
  {
    hide TaggedPhase, TaggedEntries;
  }

  lemma {:induction false} TaggedVerifyRow(s: Site, h: nat, report: Report, row: nat, tag: Label)
    requires Good(s) && Tagged(s, row, tag) && Says(Verify(h, report), row, tag) && h in s.handlers
    requires s.handlers[h].RowRead?
    ensures Tagged(Verifying(s, h, s.handlers[h], report), row, tag)
  {
    hide Good, Tagged, Become, Finish;
    PhaseOf(s, h);
    TaggedOf(s, h, row, tag);
    var charge := s.handlers[h].charge;
    if VerifyCharge(report, Some(s.handlers[h].amount), charge.event.txRef).Some? {
      var found := MethodLabel(SettledType(charge, report));
      TaggedBecome(s, h, Verified(charge, s.handlers[h].row, report.amount, found), row, tag);
    } else {
      TaggedBecome(s, h, Mismatched(charge), row, tag);
    }
  }

  lemma {:induction false} TaggedVerify(s: Site, h: nat, report: Report, row: nat, tag: Label)
    requires Good(s) && Tagged(s, row, tag) && Says(Verify(h, report), row, tag) && h in s.handlers
    ensures Tagged(Verifying(s, h, s.handlers[h], report), row, tag)
  {
    hide Good, Tagged, Become, Finish;
    PhaseOf(s, h);
    TaggedOf(s, h, row, tag);
    match s.handlers[h]
    case RowRead(charge, r, amount) => TaggedVerifyRow(s, h, report, row, tag);
    case AccountRead(charge, va) => TaggedBecome(s, h, AccountVerified(charge, va, report.amount), row, tag);
    case _ =>
  }

  lemma {:induction false} TaggedReply(s: Site, h: nat, answer: Answer, row: nat, tag: Label)
    requires Tagged(s, row, tag) && Says(Reply(h, answer), row, tag) && h in s.handlers
    ensures Tagged(Replying(s, h, s.handlers[h], answer), row, tag)
  {
    hide Tagged, Become, Finish;
    TaggedOf(s, h, row, tag);
    match s.handlers[h]
    case Asked(r, amount) =>
      var decision := Decide(answer, r, amount);
      if decision.Settle? {
        TaggedBecome(s, h, Settling(r, decision.amount, decision.tag), row, tag);
      } else if decision.MarkFailed? {
        TaggedBecome(s, h, Failing(r), row, tag);
      }
    case _ =>
  }

  lemma {:induction false} TaggedRun(s: Site, steps: seq<Step>, row: nat, tag: Label)
    requires Good(s) && Tagged(s, row, tag) && OneType(steps, row, tag)
    ensures Tagged(Run(s, steps), row, tag)
    decreases |steps|
  {
    hide Good, Tagged, Next, Says;
    if |steps| > 0 {
      NextKeeps(s, steps[0]);
      assert Says(steps[0], row, tag);
      TaggedNext(s, steps[0], row, tag);
      forall i | 0 <= i < |steps[1..]| ensures Says(steps[1..][i], row, tag) {
        assert Says(steps[i + 1], row, tag);
      }
      TaggedRun(Next(s, steps[0]), steps[1..], row, tag);
    }
  }
}
