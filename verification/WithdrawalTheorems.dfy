/** What every interleaving of a withdrawal's two endings guarantees, and where the status column can lie. */
module WithdrawalTheorems {
  import opened Wrappers
  import opened Ledger
  import opened LedgerServices
  import opened Withdrawals
  import A = Audit

  ghost predicate Fresh(s: Site) {
    && s.handlers == map[] && s.store.rows == map[]
    && forall id :: id in s.store.wallets ==> NoneOurs(s.store.wallets[id].entries)
  }

  predicate NoneOurs(es: seq<Entry>) {
    forall i :: 0 <= i < |es| ==> !Ours(es[i].ref)
  }

  lemma {:induction false} NothingContributed(es: seq<Entry>, row: nat)
    requires NoneOurs(es)
    ensures Effect(es, row) == 0 && !Reversed(es, row)
    decreases |es|
  {
    if |es| > 0 {
      NothingContributed(es[..|es| - 1], row);
      assert !Ours(es[|es| - 1].ref);
    }
  }

  lemma {:induction false} FreshGood(s: Site)
    requires Fresh(s)
    ensures Good(s.store) && Agree(s.store)
  {
    forall id, row | id in s.store.wallets ensures Accounted(s.store, id, row) {
      NothingContributed(s.store.wallets[id].entries, row);
    }
  }

  /** In every interleaving of the request, its own reversal, any number of webhooks, their retries and
      reconciliations, a withdrawal takes its amount out of its own wallet once or, once reversed, not at
      all, and no other wallet is touched. */
  lemma {:induction false} DebitOrNothing(s: Site, steps: seq<Step>, id: WalletId, row: nat)
    requires Fresh(s) && id in Run(s, steps).store.wallets
    ensures var st := Run(s, steps).store;
      var es := st.wallets[id].entries;
      if row in st.rows && id == Of(st.rows[row].user) then
        Effect(es, row) == if Reversed(es, row) then 0 else 0 - st.rows[row].amount
      else Effect(es, row) == 0
  {
    hide Fresh, Run, Effect, Reversed, Agree;
    FreshGood(s);
    RunKeeps(s, steps);
    assert Accounted(Run(s, steps).store, id, row);
  }

  // ----- The two transactions in numbers -------------------------------------------------------------------

  /** A withdrawal is taken exactly when it is of 10000 kobo or more, under a new identifier, from a wallet whose whole
      history leaves that much beside what is reserved. It adds one debit of the amount to that wallet and one PENDING
      row, and moves nothing else. */
  lemma {:induction false} InitializeExactly(st: Store, row: nat, user: nat, amount: int)
    ensures Initialize(st, row, user, amount).Success? <==>
      && amount >= 10000 && row !in st.rows && Of(user) in st.wallets
      && Net(st.wallets[Of(user)].entries) - Reserved(st.wallets[Of(user)]) >= amount
      && forall i :: 0 <= i < |st.wallets[Of(user)].entries| ==>
           var e := st.wallets[Of(user)].entries[i];
           !(e.ref == Withdrawal(row) && e.source.Transaction? && e.sourceId == Row(row))
    ensures Initialize(st, row, user, amount).Success? ==>
      var w := st.wallets[Of(user)];
      var entry := Entry(Withdrawal(row), EntryType.Debit, Main, amount, Net(w.entries), Net(w.entries) - amount,
        Transaction, Row(row));
      Initialize(st, row, user, amount).value == Store(
        st.wallets[Of(user) := Wallet(w.entries + [entry], w.buckets)],
        st.rows[row := TransferRow(user, amount, Pending)], st.markers)
  {
    hide Net, Reserved;
  }

  /** A reversal goes through exactly when the row's user has a wallet without this row's compensation. It adds one
      credit of the withdrawn amount, on top of the latest snapshot or of the whole history, and marks the row FAILED
      whatever it was. */
  lemma {:induction false} ReverseExactly(st: Store, row: nat, fromHistory: bool)
    requires row in st.rows
    ensures var id := Of(st.rows[row].user);
      Reverse(st, row, fromHistory).Success? <==>
        && id in st.wallets
        && forall i :: 0 <= i < |st.wallets[id].entries| ==>
             var e := st.wallets[id].entries[i];
             !(e.ref == Compensation(row) && e.source.Reversal? && e.sourceId == Row(row))
    ensures Reverse(st, row, fromHistory).Success? ==>
      var id, amount := Of(st.rows[row].user), st.rows[row].amount;
      var w := st.wallets[id];
      var base := if fromHistory then Net(w.entries) else Balance(w);
      var entry := Entry(Compensation(row), Credit, Main, amount, base, base + amount, SourceType.Reversal, Row(row));
      Reverse(st, row, fromHistory).value == Store(
        st.wallets[id := Wallet(w.entries + [entry], w.buckets)],
        st.rows[row := TransferRow(st.rows[row].user, amount, Failed)], st.markers)
  {
    hide Net, Balance;
  }

  // ----- Uninterrupted handlers ------------------------------------------------------------------------------

  /** A webhook on a quiet site: marker, read, transaction, and the marker's release when that fails. */
  ghost function Notified(st: Store, row: nat, confirmed: bool): Site {
    Next(Next(Next(Next(Site(st, map[]), Deliver(0, row, confirmed)), Read(0)), Commit(0)), Commit(0))
  }

  /** A PENDING withdrawal the provider confirms becomes SUCCESS and moves no money; one it reports failed is paid
      back and becomes FAILED. Any other keeps its row and every wallet, and so does a second webhook for one event.
      A marker stays behind unless the paying back failed. */
  lemma {:induction false} NotifiedExactly(st: Store, row: nat, confirmed: bool)
    ensures row in st.markers ==> Notified(st, row, confirmed) == Site(st, map[])
    ensures row !in st.markers ==>
      var marked := st.(markers := st.markers + {row});
      Notified(st, row, confirmed) == Site(
        if !IsPending(st, row) then marked
        else if confirmed then marked.(rows := st.rows[row := st.rows[row].(status := Succeeded)])
        else if Reverse(marked, row, false).Success? then Reverse(marked, row, false).value
        else st, map[])
  {
    hide Initialize, Reverse, A.Attempt, Unrelated;
    var marked := st.(markers := st.markers + {row});
    var s := Next(Site(st, map[]), Deliver(0, row, confirmed));
    assert row !in st.markers ==> s == Site(marked, map[0 := Received(row, confirmed)]);
    if row !in st.markers {
      assert marked.(markers := marked.markers - {row}) == st;
    }
  }

  /** A request ends with its debit alone when the provider takes it, and with debit and compensation when not. */
  lemma {:induction false} RequestedExactly(st: Store, row: nat, user: nat, amount: int)
    ensures var s := Next(Site(st, map[]), Request(0, row, user, amount));
      match Initialize(st, row, user, amount)
      case Failure(_) => s == Site(st, map[])
      case Success(debited) =>
        && Next(s, Step.Accepted(0)) == Site(debited, map[])
        && (row in debited.rows ==>
             var reversed := Reverse(debited, row, true);
             Next(Next(s, Withdrawals.Refused(0)), Commit(0)) ==
               Site(if reversed.Success? then reversed.value else debited, map[]))
  {
    hide Initialize, Reverse, A.Attempt, Unrelated;
  }

  /** A reconciliation that takes the withdrawal for a payment marks it FAILED and pays nothing back. */
  lemma {:induction false} ReconciliationPaysNothingBack(st: Store, row: nat)
    requires IsPending(st, row)
    ensures Next(Next(Site(st, map[]), Reconcile(0, row)), Commit(0)) ==
      Site(st.(rows := st.rows[row := st.rows[row].(status := Failed)]), map[])
  {
    hide Initialize, Reverse, A.Attempt, Unrelated;
  }

  // ----- FAILED means reversed -----------------------------------------------------------------------------

  predicate Refunded(st: Store, row: nat) {
    row in st.rows && Of(st.rows[row].user) in st.wallets && Reversed(st.wallets[Of(st.rows[row].user)].entries, row)
  }

  /** The status column tells the truth: FAILED rows, and only they, have been paid back. */
  ghost predicate Agree(st: Store) {
    forall row :: row in st.rows ==> (st.rows[row].status.Failed? <==> Refunded(st, row))
  }

  /** A confirmation that read PENDING before the reversal, or a reconciliation that fails a withdrawal
      nobody reverses. */
  predicate Stale(s: Site, step: Step) {
    && step.Commit? && step.h in s.handlers && s.handlers[step.h].row in s.store.rows
    && var phase := s.handlers[step.h];
    && var status := s.store.rows[phase.row].status;
    && ((phase.RowRead? && phase.confirmed && status.Failed?) || (phase.FailingRead? && !status.Failed?))
  }

  lemma {:induction false} StatusAgrees(st: Store, row: nat, status: TxStatus)
    requires Agree(st) && row in st.rows
    ensures Agree(SetStatus(st, row, status)) <==> (status.Failed? <==> st.rows[row].status.Failed?)
  {
    hide Reversed;
    var st' := SetStatus(st, row, status);
    assert st'.rows[row].status == status;
    forall r | r in st.rows ensures Refunded(st', r) <==> Refunded(st, r) {
    }
    assert Refunded(st', row) <==> st.rows[row].status.Failed?;
  }

  lemma {:induction false} ReverseAgrees(st: Store, row: nat, fromHistory: bool, st': Store)
    requires Good(st) && Agree(st) && row in st.rows && Reverse(st, row, fromHistory) == Success(st')
    ensures Agree(st')
  {
    hide Reverse, Reversed, Good;
    ReverseKeeps(st, row, fromHistory, st');
    WalletsOf(st);
    forall r | r in st'.rows ensures st'.rows[r].status.Failed? <==> Refunded(st', r) {
      assert r != row ==> (st.rows[r].status.Failed? <==> Refunded(st, r));
    }
  }

  lemma {:induction false} WalletsOf(st: Store)
    requires Good(st)
    ensures forall r :: r in st.rows ==> Of(st.rows[r].user) in st.wallets
  {
  }

  lemma {:induction false} OtherAgrees(st: Store, id: WalletId, op: A.Op, st': Store)
    requires Good(st) && Agree(st) && id in st.wallets && Unrelated(st.wallets[id], op)
    requires A.Attempt(st.wallets[id], op).Success?
    requires st' == st.(wallets := st.wallets[id := A.Attempt(st.wallets[id], op).value])
    ensures Agree(st')
  {
    hide Reversed, Good, A.Attempt, Unrelated;
    OtherKeeps(st, id, op, st');
    WalletsOf(st);
    forall r | r in st'.rows ensures st'.rows[r].status.Failed? <==> Refunded(st', r) {
      assert st.rows[r].status.Failed? <==> Refunded(st, r);
    }
  }

  lemma {:induction false} InitializeAgrees(st: Store, row: nat, user: nat, amount: int, st': Store)
    requires Good(st) && Agree(st) && Initialize(st, row, user, amount) == Success(st')
    ensures Agree(st')
  {
    hide Reversed, Good, Initialize;
    InitializeKeeps(st, row, user, amount, st');
    WalletsOf(st);
    forall r | r in st'.rows ensures st'.rows[r].status.Failed? <==> Refunded(st', r) {
      assert r != row ==> (st.rows[r].status.Failed? <==> Refunded(st, r));
    }
  }

  lemma {:induction false} MarkersAgree(st: Store, markers: set<nat>)
    requires Agree(st)
    ensures Agree(st.(markers := markers))
  {
    hide Reversed;
    forall r | r in st.rows ensures Refunded(st.(markers := markers), r) <==> Refunded(st, r) {
    }
  }

  lemma {:induction false} CommitAgrees(s: Site, h: nat)
    requires Good(s.store) && Agree(s.store) && h in s.handlers
    ensures Agree(Committing(s, h, s.handlers[h]).store) <==> !Stale(s, Commit(h))
  {
    hide Good, Reverse, Agree;
    match s.handlers[h]
    case Reversing(row) =>
      if row in s.store.rows && Reverse(s.store, row, true).Success? {
        ReverseAgrees(s.store, row, true, Reverse(s.store, row, true).value);
      }
    case RowRead(row, confirmed) =>
      if row in s.store.rows {
        if confirmed {
          StatusAgrees(s.store, row, Succeeded);
        } else if Reverse(s.store, row, false).Success? {
          ReverseAgrees(s.store, row, false, Reverse(s.store, row, false).value);
        }
      }
    case Releasing(row) => MarkersAgree(s.store, s.store.markers - {row});
    case FailingRead(row) =>
      if row in s.store.rows {
        StatusAgrees(s.store, row, Failed);
      }
    case _ =>
  }

  /** One step keeps FAILED equivalent to paid back exactly when it is not stale. */
  lemma {:induction false} StepAgrees(s: Site, step: Step)
    requires Good(s.store) && Agree(s.store)
    ensures Agree(Next(s, step).store) <==> !Stale(s, step)
  {
    hide Good, Agree, Committing, Initialize, A.Attempt, Unrelated;
    match step
    case Other(id, op) =>
      if id in s.store.wallets && Unrelated(s.store.wallets[id], op) && A.Attempt(s.store.wallets[id], op).Success? {
        OtherAgrees(s.store, id, op, Next(s, step).store);
      }
    case Request(h, row, user, amount) =>
      if Initialize(s.store, row, user, amount).Success? {
        InitializeAgrees(s.store, row, user, amount, Initialize(s.store, row, user, amount).value);
      }
    case Deliver(h, row, confirmed) => MarkersAgree(s.store, s.store.markers + {row});
    case Commit(h) => if h in s.handlers { CommitAgrees(s, h); }
    case _ =>
  }

  ghost predicate NeverStale(s: Site, steps: seq<Step>)
    decreases |steps|
  {
    |steps| == 0 || (!Stale(s, steps[0]) && NeverStale(Next(s, steps[0]), steps[1..]))
  }

  lemma {:induction false} RunAgrees(s: Site, steps: seq<Step>)
    requires Good(s.store) && Agree(s.store) && NeverStale(s, steps)
    ensures Agree(Run(s, steps).store)
    decreases |steps|
  {
    hide Good, Agree, Next, Stale;
    if |steps| > 0 {
      NextKeeps(s, steps[0]);
      StepAgrees(s, steps[0]);
      RunAgrees(Next(s, steps[0]), steps[1..]);
    }
  }

  /** While nothing is stale, a FAILED withdrawal has cost its owner nothing and any other its full amount. */
  lemma {:induction false} StatusTellsTheCost(s: Site, steps: seq<Step>, row: nat)
    requires Fresh(s) && NeverStale(s, steps) && row in Run(s, steps).store.rows
    ensures var st := Run(s, steps).store;
      && Of(st.rows[row].user) in st.wallets
      && Effect(st.wallets[Of(st.rows[row].user)].entries, row)
           == if st.rows[row].status.Failed? then 0 else 0 - st.rows[row].amount
  {
    hide Fresh, Run, Effect, Reversed, NeverStale;
    FreshGood(s);
    RunKeeps(s, steps);
    RunAgrees(s, steps);
    var st := Run(s, steps).store;
    assert Refunded(st, row) <==> st.rows[row].status.Failed?;
    assert Accounted(st, Of(st.rows[row].user), row);
  }

  // ----- The race ------------------------------------------------------------------------------------------

  lemma {:induction false} RunFirst(s: Site, step: Step, rest: seq<Step>)
    ensures Run(s, [step] + rest) == Run(Next(s, step), rest)
  {
    hide Next;
    assert ([step] + rest)[1..] == rest;
  }

  /** The provider accepts and confirms, but the request itself fails afterwards and reverses. */
  function Race(h: nat, g: nat, row: nat): seq<Step> {
    [Deliver(g, row, true)] + ([Read(g)] + ([Withdrawals.Refused(h)] + ([Commit(h)] + ([Commit(g)] + []))))
  }

  /** A request still waiting for its provider call, whose webhook has not come. */
  ghost predicate Waiting(s: Site, h: nat, g: nat, row: nat) {
    && Good(s.store) && Agree(s.store) && IsPending(s.store, row)
    && h in s.handlers && s.handlers[h] == Calling(row) && g !in s.handlers && h != g
    && row !in s.store.markers
  }

  lemma {:induction false} PendingReverses(st: Store, row: nat)
    requires Good(st) && Agree(st) && IsPending(st, row)
    ensures Reverse(st, row, true).Success?
  {
    hide Effect;
    var id := Of(st.rows[row].user);
    WalletsOf(st);
    assert !Refunded(st, row);
    hide HasKey, Balance, Good, Agree;
  }

  lemma {:induction false} RaceReads(s: Site, h: nat, g: nat, row: nat)
    requires Waiting(s, h, g, row)
    ensures var s3 := Next(Next(Next(s, Deliver(g, row, true)), Read(g)), Withdrawals.Refused(h));
      s3 == Site(s.store.(markers := s.store.markers + {row}), s.handlers[h := Reversing(row)][g := RowRead(row, true)])
  {
    hide Good, Agree, Initialize, A.Attempt, Unrelated, Committing;
  }

  lemma {:induction false} RaceCommits(s: Site, h: nat, g: nat, row: nat)
    requires h in s.handlers && g in s.handlers && h != g && row in s.store.rows
    requires s.handlers[h] == Reversing(row) && s.handlers[g] == RowRead(row, true)
    requires Reverse(s.store, row, true).Success?
    ensures Next(Next(s, Commit(h)), Commit(g)).store == SetStatus(Reverse(s.store, row, true).value, row, Succeeded)
  {
    hide Initialize, A.Attempt, Unrelated;
  }

  /** From every such state: SUCCESS overwrites the reversal, and the wallet keeps the money that was sent. */
  lemma {:induction false} SuccessOverwritesReversal(s: Site, h: nat, g: nat, row: nat)
    requires Waiting(s, h, g, row)
    ensures var st := Run(s, Race(h, g, row)).store;
      && row in st.rows && st.rows[row].status.Succeeded?
      && Of(st.rows[row].user) in st.wallets
      && Effect(st.wallets[Of(st.rows[row].user)].entries, row) == 0
  {
    hide Next, Run, Reverse, Effect, Reversed;
    RaceReads(s, h, g, row);
    var s1 := Next(s, Deliver(g, row, true));
    var s2 := Next(s1, Read(g));
    var s3 := Next(s2, Withdrawals.Refused(h));
    StatusKeeps(s.store, s3.store);
    MarkersAgree(s.store, s.store.markers + {row});
    PendingReverses(s3.store, row);
    RaceCommits(s3, h, g, row);
    RaceUnfolds(s, h, g, row);
    ReverseKeeps(s3.store, row, true, Reverse(s3.store, row, true).value);
    var st := SetStatus(Reverse(s3.store, row, true).value, row, Succeeded);
    assert Accounted(Reverse(s3.store, row, true).value, Of(st.rows[row].user), row);
  }

  lemma {:induction false} RaceUnfolds(s: Site, h: nat, g: nat, row: nat)
    ensures Run(s, Race(h, g, row))
      == Next(Next(Next(Next(Next(s, Deliver(g, row, true)), Read(g)), Withdrawals.Refused(h)), Commit(h)), Commit(g))
  {
    hide Next;
    var s1 := Next(s, Deliver(g, row, true));
    var s2 := Next(s1, Read(g));
    var s3 := Next(s2, Withdrawals.Refused(h));
    var r3 := [Commit(h)] + ([Commit(g)] + []);
    RunFirst(s, Deliver(g, row, true), [Read(g)] + ([Withdrawals.Refused(h)] + r3));
    RunFirst(s1, Read(g), [Withdrawals.Refused(h)] + r3);
    RunFirst(s2, Withdrawals.Refused(h), r3);
    RunFirst(s3, Commit(h), [Commit(g)] + []);
    RunFirst(Next(s3, Commit(h)), Commit(g), []);
  }

  /** The ledger service's own reversal of a withdrawal's debit has a different key, so together with the
      failure path it pays the amount back twice. */
  lemma {:induction false} AdministratorsReversalIsExtra(w: Wallet, i: nat, row: nat, amount: nat)
    requires i < |w.entries| && amount > 0
    requires w.entries[i].ref == DebitRef(row) && w.entries[i].kind.Debit? && w.entries[i].amount == amount
    requires w.entries[i].bucket.Main? && w.entries[i].source.Transaction? && w.entries[i].sourceId == Row(row)
    requires Effect(w.entries, row) == 0 - amount
    requires forall k :: 0 <= k < |w.entries| ==>
      w.entries[k].ref != ReversalRef(row) && w.entries[k].ref != ReversalOf(DebitRef(row))
    ensures var admin := Write(w, ReversalParams(w.entries[i]));
      && admin.Success?
      && var failure := A.Attempt(admin.value, A.HistoryCredit(amount, ReversalRef(row), Row(row)));
      && failure.Success?
      && Effect(failure.value.entries, row) == amount
  {
    hide Effect, Balance, Reserved;
    var w1 := Write(w, ReversalParams(w.entries[i])).value;
    EffectAppend(w.entries, w1.entries[|w.entries|], row);
    var w2 := A.Attempt(w1, A.HistoryCredit(amount, ReversalRef(row), Row(row))).value;
    EffectAppend(w1.entries, w2.entries[|w1.entries|], row);
  }
}
