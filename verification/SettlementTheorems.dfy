/** What every interleaving of settlements guarantees, and the two races that it does not survive. */
module SettlementTheorems {
  import opened Wrappers
  import opened Ledger
  import opened Settlement
  import opened AtMostOnce
  import A = Audit

  /** No row, no handler, no marker, and wallets no settlement has touched. */
  ghost predicate Fresh(s: Site) {
    && s.handlers == map[] && s.store.rows == map[] && s.store.markers == {}
    && forall id :: id in s.store.wallets ==> Untouched(s.store.wallets[id].entries)
  }

  ghost predicate Untouched(es: seq<Entry>) {
    UniqueKeys(es) && forall i :: 0 <= i < |es| ==> !es[i].ref.Settled? && !es[i].ref.Virtual?
  }

  lemma {:induction false} FreshGood(s: Site, row: nat, tag: Label)
    requires Fresh(s)
    ensures Good(s) && Tagged(s, row, tag) && Agree(s.store)
  {
    hide UniqueKeys;
    forall id | id in s.store.wallets ensures GoodLedger(s.store, id) {
      assert Untouched(s.store.wallets[id].entries);
    }
  }

  predicate SettlesRow(es: seq<Entry>, i: nat, row: nat) {
    i < |es| && es[i].ref.Settled? && es[i].ref.row == row
  }

  // ----- At most once --------------------------------------------------------------------------------------

  /** If the provider only ever reports one payment type for a checkout, then after any interleaving of
      deliveries, retries after failures, jobs, user checks and manual reconciliations at most one entry in
      any wallet settles it. That entry credits the row's user with no less than the row asked. */
  lemma {:induction false} CreditedAtMostOnce(s: Site, steps: seq<Step>, row: nat, tag: Label, id: WalletId, i: nat,
      other: WalletId, j: nat)
    requires Fresh(s) && OneType(steps, row, tag)
    requires var st := Run(s, steps).store;
      && id in st.wallets && SettlesRow(st.wallets[id].entries, i, row)
      && other in st.wallets && SettlesRow(st.wallets[other].entries, j, row)
    ensures id == other && i == j
    ensures var st := Run(s, steps).store;
      && row in st.rows && id == Of(st.rows[row].user)
      && st.wallets[id].entries[i].kind.Credit? && st.wallets[id].entries[i].amount >= st.rows[row].amount > 0
  {
    hide Run, Tagged, OneType, Fresh, Marked, GoodPhase;
    FreshGood(s, row, tag);
    RunKeeps(s, steps);
    TaggedRun(s, steps, row, tag);
    var st := Run(s, steps).store;
    TaggedStore(Run(s, steps), row, tag);
    SameKey(st, row, tag, id, i, other, j);
  }

  lemma {:induction false} SameKey(st: Store, row: nat, tag: Label, id: WalletId, i: nat, other: WalletId, j: nat)
    requires GoodStore(st) && id in st.wallets && other in st.wallets
    requires TaggedEntries(st.wallets[id].entries, row, tag) && TaggedEntries(st.wallets[other].entries, row, tag)
    requires SettlesRow(st.wallets[id].entries, i, row) && SettlesRow(st.wallets[other].entries, j, row)
    ensures id == other && i == j
    ensures row in st.rows && id == Of(st.rows[row].user)
    ensures st.wallets[id].entries[i].kind.Credit? && st.wallets[id].entries[i].amount >= st.rows[row].amount > 0
  {
    hide OneVirtual, Credited;
    assert GoodLedger(st, id) && GoodLedger(st, other);
    assert GoodEntry(st, id, st.wallets[id].entries[i]) && GoodEntry(st, other, st.wallets[other].entries[j]);
    assert GoodRow(st, row);
  }

  /** Whatever the provider reports, one payment type credits a checkout at most once. */
  lemma {:induction false} OncePerType(s: Site, steps: seq<Step>, id: WalletId, i: nat, j: nat)
    requires Fresh(s)
    requires var st := Run(s, steps).store;
      && id in st.wallets && i < |st.wallets[id].entries| && j < |st.wallets[id].entries|
      && st.wallets[id].entries[i].ref.Settled? && st.wallets[id].entries[i].ref == st.wallets[id].entries[j].ref
    ensures i == j
  {
    hide Run, Fresh, Marked, GoodPhase, Tagged, OneVirtual, Credited;
    FreshGood(s, 0, FundingCard);
    RunKeeps(s, steps);
    var st := Run(s, steps).store;
    assert GoodLedger(st, id);
    assert GoodEntry(st, id, st.wallets[id].entries[i]) && GoodEntry(st, id, st.wallets[id].entries[j]);
  }

  /** A virtual account's wallet is credited at most once per provider reference, retries included. */
  lemma {:induction false} AccountCreditedAtMostOnce(s: Site, steps: seq<Step>, id: WalletId, flwRef: nat, i: nat,
      j: nat)
    requires Fresh(s)
    requires var st := Run(s, steps).store;
      && id in st.wallets && i < |st.wallets[id].entries| && j < |st.wallets[id].entries|
      && st.wallets[id].entries[i].ref == st.wallets[id].entries[j].ref == Virtual(flwRef)
    ensures i == j
  {
    hide Run, Fresh, Marked, GoodPhase, Tagged, UniqueKeys, GoodEntry;
    FreshGood(s, 0, FundingCard);
    RunKeeps(s, steps);
    assert GoodLedger(Run(s, steps).store, id);
  }

  /** No two handlers ever work on one event, however often it is delivered. */
  lemma {:induction false} OneHandlerPerEvent(s: Site, steps: seq<Step>, h: nat, g: nat)
    requires Fresh(s)
    requires var end := Run(s, steps);
      && h in end.handlers && g in end.handlers && ForWebhook(end.handlers[h]) && ForWebhook(end.handlers[g])
      && end.handlers[h].charge.event == end.handlers[g].charge.event
    ensures h == g && Run(s, steps).handlers[h].charge.event in Run(s, steps).store.markers
  {
    hide Run, Fresh, GoodPhase, GoodStore, Tagged;
    FreshGood(s, 0, FundingCard);
    RunKeeps(s, steps);
  }

  // ----- SUCCESS means credited ----------------------------------------------------------------------------

  /** The status column tells the truth. */
  ghost predicate Agree(st: Store) {
    forall row :: row in st.rows ==> (st.rows[row].status.Succeeded? <==> Credited(st, row))
  }

  /** A failure decided on a status that has meanwhile become SUCCESS. */
  predicate Stale(s: Site, step: Step) {
    && step.Commit? && step.h in s.handlers && s.handlers[step.h].FailingRead?
    && s.handlers[step.h].row in s.store.rows
    && s.store.rows[s.handlers[step.h].row].status.Succeeded?
  }

  lemma {:induction false} CreditedAppended(st: Store, id: WalletId, e: Entry, st': Store, row: nat)
    requires Appended(st, id, e, st') && row in st.rows
    ensures Credited(st', row) <==> Credited(st, row) || (e.ref.Settled? && e.ref.row == row)
  {
    hide HasKey, HasReference;
    var u := Of(st.rows[row].user);
    if Credited(st, row) {
      CreditedStays(st, id, e, st', row);
    }
    if e.ref.Settled? && e.ref.row == row {
      InLedger(st'.wallets[id].entries, |st.wallets[id].entries|, row);
    }
    if Credited(st', row) {
      var es, es' := st.wallets[u].entries, st'.wallets[u].entries;
      var i :| 0 <= i < |es'| && es'[i].ref.Settled? && es'[i].ref.row == row;
      assert i < |es| ==> es[i] == es'[i];
      assert i < |es| ==> SettledIn(es, row);
    }
  }

  lemma {:induction false} AppendAgrees(st: Store, id: WalletId, e: Entry, st': Store)
    requires Agree(st) && Appended(st, id, e, st')
    requires forall r :: r in st.rows ==>
      (st'.rows[r].status.Succeeded? <==> st.rows[r].status.Succeeded? || (e.ref.Settled? && e.ref.row == r))
    ensures Agree(st')
  {
    hide Credited, HasKey, HasReference;
    forall r | r in st'.rows ensures st'.rows[r].status.Succeeded? <==> Credited(st', r) {
      CreditedAppended(st, id, e, st', r);
    }
  }

  lemma {:induction false} CheckoutAgrees(st: Store, row: nat, amount: int, tag: Label, st': Store)
    requires GoodStore(st) && Agree(st) && row in st.rows && amount >= st.rows[row].amount
    requires CreditCheckout(st, row, amount, tag) == Success(st')
    ensures Agree(st')
  {
    hide HasKey, GoodStore, CreditTo, Credited, Agree;
    var user := st.rows[row].user;
    var paid := CreditTo(st, user, amount, Settled(tag, row), row).value;
    CreditToAppends(st, user, amount, Settled(tag, row), row, paid);
    var es' := st'.wallets[Of(user)].entries;
    AppendAgrees(st, Of(user), es'[|es'| - 1], st');
  }

  lemma {:induction false} AccountAgrees(st: Store, va: nat, amount: int, flwRef: nat, st': Store)
    requires Agree(st) && va in st.accounts && CreditAccount(st, va, amount, flwRef) == Success(st')
    ensures Agree(st')
  {
    hide HasKey, HasReference, CreditTo, Credited, Agree;
    var user := st.accounts[va];
    if st' != st {
      CreditToAppends(st, user, amount, Virtual(flwRef), va, st');
      var es' := st'.wallets[Of(user)].entries;
      AppendAgrees(st, Of(user), es'[|es'| - 1], st');
    }
  }

  /** Marking a row FAILED keeps the statuses truthful exactly when the row was not SUCCESS. */
  lemma {:induction false} FailedAgrees(st: Store, row: nat)
    requires Agree(st) && row in st.rows
    ensures Agree(SetStatus(st, row, Failed)) <==> !st.rows[row].status.Succeeded?
  {
    hide SettledIn;
    var st' := SetStatus(st, row, Failed);
    assert st'.rows[row].status.Failed?;
    forall r | r in st.rows ensures Credited(st', r) <==> Credited(st, r) {
    }
    assert Credited(st', row) <==> st.rows[row].status.Succeeded?;
  }

  lemma {:induction false} NotYetCredited(st: Store, row: nat, id: WalletId)
    requires GoodStore(st) && row !in st.rows && id in st.wallets
    ensures !SettledIn(st.wallets[id].entries, row)
  {
    hide UniqueKeys, OneVirtual, GoodRow;
    assert GoodLedger(st, id);
    var es := st.wallets[id].entries;
    forall i | 0 <= i < |es| ensures !(es[i].ref.Settled? && es[i].ref.row == row) {
      assert GoodEntry(st, id, es[i]);
    }
  }

  lemma {:induction false} CommitAgrees(s: Site, h: nat)
    requires Good(s) && Agree(s.store) && h in s.handlers
    ensures Agree(Committing(s, h, s.handlers[h]).store) <==> !Stale(s, Commit(h))
  {
    hide Good, GoodStore, CreditCheckout, CreditAccount, Agree;
    PhaseOf(s, h);
    match s.handlers[h]
    case Verified(charge, row, amount, tag) =>
      if CreditCheckout(s.store, row, amount, tag).Success? {
        CheckoutAgrees(s.store, row, amount, tag, CreditCheckout(s.store, row, amount, tag).value);
      }
    case AccountVerified(charge, va, amount) =>
      if CreditAccount(s.store, va, amount, charge.event.flwRef).Success? {
        AccountAgrees(s.store, va, amount, charge.event.flwRef,
          CreditAccount(s.store, va, amount, charge.event.flwRef).value);
      }
    case Mismatched(charge) =>
      if charge.event.txRef.Checkout? && IsPending(s.store, charge.event.txRef.row) {
        FailedAgrees(s.store, charge.event.txRef.row);
      }
    case Releasing(charge) => MarkersAgree(s.store, s.store.markers - {charge.event});
    case SettlingRead(row, amount, tag) =>
      if CreditCheckout(s.store, row, amount, tag).Success? {
        CheckoutAgrees(s.store, row, amount, tag, CreditCheckout(s.store, row, amount, tag).value);
      }
    case FailingRead(row) => FailedAgrees(s.store, row);
    case _ =>
  }

  lemma {:induction false} MarkersAgree(st: Store, markers: set<Event>)
    requires Agree(st)
    ensures Agree(st.(markers := markers))
  {
    hide SettledIn;
    var st' := st.(markers := markers);
    forall r | r in st.rows ensures Credited(st', r) <==> Credited(st, r) {
    }
  }

  lemma {:induction false} InitializeAgrees(st: Store, row: nat, user: nat, amount: int)
    requires GoodStore(st) && Agree(st) && row !in st.rows && Of(user) in st.wallets
    ensures Agree(st.(rows := st.rows[row := FundingRow(user, amount, Pending)]))
  {
    hide SettledIn;
    NotYetCredited(st, row, Of(user));
    var st' := st.(rows := st.rows[row := FundingRow(user, amount, Pending)]);
    forall r | r in st.rows ensures Credited(st', r) <==> Credited(st, r) {
    }
  }

  lemma {:induction false} OtherAgrees(st: Store, id: WalletId, op: A.Op, w': Wallet)
    requires Agree(st) && id in st.wallets && Unrelated(op) && A.Attempt(st.wallets[id], op) == Success(w')
    ensures Agree(st.(wallets := st.wallets[id := w']))
  {
    hide HasKey, HasReference, Agree, A.Attempt, Unrelated;
    AttemptAppends(st.wallets[id], op, w');
    AppendAgrees(st, id, w'.entries[|st.wallets[id].entries|], st.(wallets := st.wallets[id := w']));
  }

  /** One step keeps SUCCESS equivalent to credited exactly when it is not a stale failure. */
  lemma {:induction false} StepAgrees(s: Site, step: Step)
    requires Good(s) && Agree(s.store)
    ensures Agree(Next(s, step).store) <==> !Stale(s, step)
  {
    hide Good, Agree, Committing, A.Attempt, Unrelated;
    StoreOf(s);
    match step
    case Other(id, op) =>
      if id in s.store.wallets && Unrelated(op) && A.Attempt(s.store.wallets[id], op).Success? {
        OtherAgrees(s.store, id, op, A.Attempt(s.store.wallets[id], op).value);
      }
    case Initialize(row, user, amount) =>
      if row !in s.store.rows && Of(user) in s.store.wallets {
        InitializeAgrees(s.store, row, user, amount);
      }
    case Deliver(h, charge) => MarkersAgree(s.store, s.store.markers + {charge.event});
    case Commit(h) => if h in s.handlers { CommitAgrees(s, h); }
    case _ =>
  }

  ghost predicate NeverStale(s: Site, steps: seq<Step>)
    decreases |steps|
  {
    |steps| == 0 || (!Stale(s, steps[0]) && NeverStale(Next(s, steps[0]), steps[1..]))
  }

  lemma {:induction false} RunAgrees(s: Site, steps: seq<Step>)
    requires Good(s) && Agree(s.store) && NeverStale(s, steps)
    ensures Good(Run(s, steps)) && Agree(Run(s, steps).store)
    decreases |steps|
  {
    hide Good, Agree, Next, Stale;
    if |steps| > 0 {
      NextKeeps(s, steps[0]);
      StepAgrees(s, steps[0]);
      RunAgrees(Next(s, steps[0]), steps[1..]);
    }
  }

  /** In every run SUCCESS implies credited; while no failure is stale, the converse holds too. */
  lemma {:induction false} SuccessMeansCredited(s: Site, steps: seq<Step>, row: nat)
    requires Fresh(s) && row in Run(s, steps).store.rows
    ensures var st := Run(s, steps).store;
      && (st.rows[row].status.Succeeded? ==> Credited(st, row))
      && (st.rows[row].status.Pending? ==> !Credited(st, row))
      && (NeverStale(s, steps) ==> (st.rows[row].status.Succeeded? <==> Credited(st, row)))
  {
    hide Run, Fresh, NeverStale, Marked, GoodPhase, Tagged, SettledIn;
    FreshGood(s, row, FundingCard);
    RunKeeps(s, steps);
    var st := Run(s, steps).store;
    assert GoodRow(st, row);
    if st.rows[row].status.Pending? {
      PendingUncredited(st, row);
    }
    if NeverStale(s, steps) {
      RunAgrees(s, steps);
    }
  }

  lemma {:induction false} PendingUncredited(st: Store, row: nat)
    requires GoodStore(st) && IsPending(st, row)
    ensures forall id :: id in st.wallets ==> !SettledIn(st.wallets[id].entries, row)
    ensures Of(st.rows[row].user) in st.wallets && st.rows[row].amount > 0
  {
    hide UniqueKeys, OneVirtual;
    assert GoodRow(st, row);
    forall id | id in st.wallets ensures !SettledIn(st.wallets[id].entries, row) {
      assert GoodLedger(st, id);
      var es := st.wallets[id].entries;
      forall i | 0 <= i < |es| ensures !(es[i].ref.Settled? && es[i].ref.row == row) {
        assert GoodEntry(st, id, es[i]);
      }
    }
  }

  // ----- The two races -------------------------------------------------------------------------------------

  lemma {:induction false} RunFirst(s: Site, step: Step, rest: seq<Step>)
    ensures Run(s, [step] + rest) == Run(Next(s, step), rest)
  {
    hide Next;
    assert ([step] + rest)[1..] == rest;
  }

  function Paid(row: nat, amount: int, paymentType: Option<string>): Answer {
    Found(Report(Successful, Checkout(row), true, amount, paymentType))
  }

  /** Two reconciliations that both read PENDING before either writes. */
  function Race(h: nat, g: nat, row: nat, first: Answer, second: Answer): seq<Step> {
    [Reconcile(h, row)] + ([Reconcile(g, row)] + ([Reply(h, first)] + ([Reply(g, second)]
      + ([Read(h)] + ([Read(g)] + ([Commit(h)] + ([Commit(g)] + [])))))))
  }

  /** What a handler is about to do once it has read PENDING again. */
  function Outcome(decision: Decision, row: nat): Phase {
    match decision
    case Settle(tag, paid) => SettlingRead(row, paid, tag)
    case MarkFailed => FailingRead(row)
    case LeaveIt => Failing(row)
  }

  lemma {:induction false} AskStep(s: Site, h: nat, row: nat)
    requires IsPending(s.store, row) && h !in s.handlers
    ensures Next(s, Reconcile(h, row)) == Site(s.store, s.handlers[h := Asked(row, s.store.rows[row].amount)])
  {
    hide A.Attempt, Committing, Verifying, Unrelated, Crashing, Reading, Replying;
  }

  /** An answer that decides something, and the re-read of the status before acting on it. */
  lemma {:induction false} DecideSteps(s: Site, h: nat, row: nat, amount: int, answer: Answer)
    requires IsPending(s.store, row) && h in s.handlers && s.handlers[h] == Asked(row, amount)
    requires !Decide(answer, row, amount).LeaveIt?
    ensures var told := Next(s, Reply(h, answer));
      && told.store == s.store && h in told.handlers && told.handlers == s.handlers[h := told.handlers[h]]
      && (told.handlers[h].Settling? || told.handlers[h].Failing?)
      && ReadPhase(s, h, told.handlers[h]) == Outcome(Decide(answer, row, amount), row)
      && told.handlers[h].row == row
  {
    hide A.Attempt, Committing, Verifying, Unrelated, Crashing, Reading, Decide;
  }

  lemma {:induction false} RereadStep(s: Site, h: nat, row: nat)
    requires h in s.handlers && IsPending(s.store, row)
    requires (s.handlers[h].Settling? || s.handlers[h].Failing?) && s.handlers[h].row == row
    ensures Next(s, Read(h)) == Site(s.store, s.handlers[h := ReadPhase(s, h, s.handlers[h])])
  {
    hide A.Attempt, Committing, Verifying, Unrelated, Crashing, Replying;
  }

  lemma {:induction false} SettleStep(s: Site, h: nat, row: nat, amount: int, tag: Label)
    requires h in s.handlers && s.handlers[h] == SettlingRead(row, amount, tag)
    requires row in s.store.rows && CreditCheckout(s.store, row, amount, tag).Success?
    ensures Next(s, Commit(h)) == Site(CreditCheckout(s.store, row, amount, tag).value, s.handlers - {h})
  {
    hide A.Attempt, Verifying, Unrelated, Crashing, Replying, Reading, CreditCheckout, CreditAccount;
  }

  lemma {:induction false} FailStep(s: Site, h: nat, row: nat)
    requires h in s.handlers && s.handlers[h] == FailingRead(row) && row in s.store.rows
    ensures Next(s, Commit(h)) == Site(SetStatus(s.store, row, Failed), s.handlers - {h})
  {
    hide A.Attempt, Verifying, Unrelated, Crashing, Replying, Reading, CreditCheckout, CreditAccount;
  }

  lemma {:induction false} RaceReads(s: Site, h: nat, g: nat, row: nat, first: Answer, second: Answer)
    requires IsPending(s.store, row) && h != g && h !in s.handlers && g !in s.handlers
    requires !Decide(first, row, s.store.rows[row].amount).LeaveIt?
    requires !Decide(second, row, s.store.rows[row].amount).LeaveIt?
    ensures var amount := s.store.rows[row].amount;
      var asked := Next(Next(s, Reconcile(h, row)), Reconcile(g, row));
      var answered := Next(Next(asked, Reply(h, first)), Reply(g, second));
      var one, other := Outcome(Decide(first, row, amount), row), Outcome(Decide(second, row, amount), row);
      Next(Next(answered, Read(h)), Read(g)) == Site(s.store, s.handlers[h := one][g := other])
  {
    hide Decide, Next, Outcome, ReadPhase, Reading, GoodPhase;
    var amount := s.store.rows[row].amount;
    AskStep(s, h, row);
    var s1 := Next(s, Reconcile(h, row));
    AskStep(s1, g, row);
    var s2 := Next(s1, Reconcile(g, row));
    DecideSteps(s2, h, row, amount, first);
    var s3 := Next(s2, Reply(h, first));
    DecideSteps(s3, g, row, amount, second);
    var s4 := Next(s3, Reply(g, second));
    RereadStep(s4, h, row);
    var s5 := Next(s4, Read(h));
    RereadStep(s5, g, row);
    SamePhase(s2, s4, h, s3.handlers[h]);
    SamePhase(s3, s5, g, s4.handlers[g]);
  }

  lemma {:induction false} SamePhase(s: Site, s': Site, h: nat, phase: Phase)
    requires s'.store == s.store
    ensures ReadPhase(s', h, phase) == ReadPhase(s, h, phase)
  {
  }

  lemma {:induction false} RaceRuns(s: Site, h: nat, g: nat, row: nat, first: Answer, second: Answer)
    requires IsPending(s.store, row) && h != g && h !in s.handlers && g !in s.handlers
    requires !Decide(first, row, s.store.rows[row].amount).LeaveIt?
    requires !Decide(second, row, s.store.rows[row].amount).LeaveIt?
    ensures var amount := s.store.rows[row].amount;
      var s' := Site(s.store,
        s.handlers[h := Outcome(Decide(first, row, amount), row)][g := Outcome(Decide(second, row, amount), row)]);
      Run(s, Race(h, g, row, first, second)) == Next(Next(s', Commit(h)), Commit(g))
  {
    hide Next, Decide, Outcome;
    RaceReads(s, h, g, row, first, second);
    var s1 := Next(s, Reconcile(h, row));
    var s2 := Next(s1, Reconcile(g, row));
    var s3 := Next(s2, Reply(h, first));
    var s4 := Next(s3, Reply(g, second));
    var s5 := Next(s4, Read(h));
    var s6 := Next(s5, Read(g));
    var r6 := [Commit(h)] + ([Commit(g)] + []);
    RunFirst(s, Reconcile(h, row),
      [Reconcile(g, row)] + ([Reply(h, first)] + ([Reply(g, second)] + ([Read(h)] + ([Read(g)] + r6)))));
    RunFirst(s1, Reconcile(g, row), [Reply(h, first)] + ([Reply(g, second)] + ([Read(h)] + ([Read(g)] + r6))));
    RunFirst(s2, Reply(h, first), [Reply(g, second)] + ([Read(h)] + ([Read(g)] + r6)));
    RunFirst(s3, Reply(g, second), [Read(h)] + ([Read(g)] + r6));
    RunFirst(s4, Read(h), [Read(g)] + r6);
    RunFirst(s5, Read(g), r6);
    RunFirst(s6, Commit(h), [Commit(g)] + []);
    RunFirst(Next(s6, Commit(h)), Commit(g), []);
  }

  predicate Unused(es: seq<Entry>, ref: Reference) {
    forall i :: 0 <= i < |es| ==> es[i].ref != ref
  }

  lemma {:induction false} UnusedAfter(es: seq<Entry>, e: Entry, ref: Reference)
    requires Unused(es, ref) && e.ref != ref
    ensures Unused(es + [e], ref)
  {
  }

  lemma {:induction false} FreshSettlement(st: Store, row: nat, amount: int, tag: Label)
    requires row in st.rows && Of(st.rows[row].user) in st.wallets
    requires Unused(st.wallets[Of(st.rows[row].user)].entries, Settled(tag, row))
    ensures CreditCheckout(st, row, amount, tag).Success?
    ensures var st' := CreditCheckout(st, row, amount, tag).value;
      var user := Of(st.rows[row].user);
      var n := |st.wallets[user].entries|;
      && st'.wallets.Keys == st.wallets.Keys && st'.rows == st.rows[row := st.rows[row].(status := Succeeded)]
      && Balance(st'.wallets[user]) == Balance(st.wallets[user]) + amount
      && |st'.wallets[user].entries| == n + 1
      && st'.wallets[user].entries == st.wallets[user].entries + [st'.wallets[user].entries[n]]
      && st'.wallets[user].entries[n].ref == Settled(tag, row)
  {
  }

  lemma {:induction false} SettledTwice(st: Store, row: nat, amount: int, one: Label, two: Label)
    requires GoodStore(st) && IsPending(st, row) && one != two
    ensures CreditCheckout(st, row, amount, one).Success?
    ensures row in CreditCheckout(st, row, amount, one).value.rows
    ensures CreditCheckout(CreditCheckout(st, row, amount, one).value, row, amount, two).Success?
    ensures var end := CreditCheckout(CreditCheckout(st, row, amount, one).value, row, amount, two).value;
      var user := Of(st.rows[row].user);
      && user in st.wallets && user in end.wallets
      && Balance(end.wallets[user]) == Balance(st.wallets[user]) + 2 * amount
      && SettlesRow(end.wallets[user].entries, |st.wallets[user].entries|, row)
      && SettlesRow(end.wallets[user].entries, |st.wallets[user].entries| + 1, row)
  {
    hide GoodStore, CreditCheckout, Balance, Unused;
    Unsettled(st, row, one);
    Unsettled(st, row, two);
    var user := Of(st.rows[row].user);
    FreshSettlement(st, row, amount, one);
    var st' := CreditCheckout(st, row, amount, one).value;
    UnusedAfter(st.wallets[user].entries, st'.wallets[user].entries[|st.wallets[user].entries|], Settled(two, row));
    FreshSettlement(st', row, amount, two);
  }

  /** One payment type is needed: from any good site with a PENDING checkout, two payment types with
      different labels in two racing reconciliations credit it twice. */
  lemma {:induction false} TwoTypesCreditTwice(s: Site, h: nat, g: nat, row: nat, one: Option<string>,
      two: Option<string>)
    requires Good(s) && IsPending(s.store, row) && h != g && h !in s.handlers && g !in s.handlers
    requires MethodLabel(one) != MethodLabel(two)
    ensures var amount := s.store.rows[row].amount;
      var user := Of(s.store.rows[row].user);
      var end := Run(s, Race(h, g, row, Paid(row, amount, one), Paid(row, amount, two))).store;
      && user in s.store.wallets && user in end.wallets && amount > 0
      && Balance(end.wallets[user]) == Balance(s.store.wallets[user]) + 2 * amount
      && SettlesRow(end.wallets[user].entries, |s.store.wallets[user].entries|, row)
      && SettlesRow(end.wallets[user].entries, |s.store.wallets[user].entries| + 1, row)
  {
    hide Good, GoodStore, MethodLabel, CreditCheckout, Next, Balance, Run, Race, SettlesRow;
    var amount := s.store.rows[row].amount;
    StoreOf(s);
    Unsettled(s.store, row, MethodLabel(one));
    RaceRuns(s, h, g, row, Paid(row, amount, one), Paid(row, amount, two));
    SettledTwice(s.store, row, amount, MethodLabel(one), MethodLabel(two));
    var s' := Site(s.store,
      s.handlers[h := SettlingRead(row, amount, MethodLabel(one))][g := SettlingRead(row, amount, MethodLabel(two))]);
    SettleStep(s', h, row, amount, MethodLabel(one));
    SettleStep(Next(s', Commit(h)), g, row, amount, MethodLabel(two));
  }

  lemma {:induction false} Unsettled(st: Store, row: nat, tag: Label)
    requires GoodStore(st) && IsPending(st, row)
    ensures Of(st.rows[row].user) in st.wallets && st.rows[row].amount > 0
    ensures Unused(st.wallets[Of(st.rows[row].user)].entries, Settled(tag, row))
  {
    hide GoodStore;
    PendingUncredited(st, row);
    assert !SettledIn(st.wallets[Of(st.rows[row].user)].entries, row);
  }

  /** The status is read and written in two steps: a failure racing a settlement leaves a credited row FAILED. */
  lemma {:induction false} FailureOverwritesSuccess(s: Site, h: nat, g: nat, row: nat, paymentType: Option<string>)
    requires Good(s) && IsPending(s.store, row) && h != g && h !in s.handlers && g !in s.handlers
    ensures var amount := s.store.rows[row].amount;
      var user := Of(s.store.rows[row].user);
      var end := Run(s, Race(h, g, row, Paid(row, amount, paymentType), Error(true))).store;
      && user in s.store.wallets && user in end.wallets && row in end.rows
      && end.rows[row].status.Failed?
      && Balance(end.wallets[user]) == Balance(s.store.wallets[user]) + amount > Balance(s.store.wallets[user])
      && SettlesRow(end.wallets[user].entries, |s.store.wallets[user].entries|, row)
  {
    hide Good, MethodLabel, CreditCheckout, Next, Balance, Run, Race;
    var amount := s.store.rows[row].amount;
    StoreOf(s);
    Unsettled(s.store, row, MethodLabel(paymentType));
    RaceRuns(s, h, g, row, Paid(row, amount, paymentType), Error(true));
    FreshSettlement(s.store, row, amount, MethodLabel(paymentType));
    var s' := Site(s.store,
      s.handlers[h := SettlingRead(row, amount, MethodLabel(paymentType))][g := FailingRead(row)]);
    SettleStep(s', h, row, amount, MethodLabel(paymentType));
    FailStep(Next(s', Commit(h)), g, row);
  }
}
