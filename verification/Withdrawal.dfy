/** Money leaving through the provider: the debit comes first, and a failure is answered by one compensating
    credit, whichever of the two paths notices it. */
module Withdrawals {
  import opened Wrappers
  import opened Ledger
  import A = Audit

  datatype TxStatus = Pending | Succeeded | Failed

  datatype TransferRow = TransferRow(user: nat, amount: nat, status: TxStatus)

  /** markers are the webhook events recorded so far; a transfer's event is its own reference. */
  datatype Store = Store(wallets: Wallets, rows: map<nat, TransferRow>, markers: set<nat>)

  const MIN_WITHDRAWAL: int := 10000

  function DebitRef(row: nat): Reference {
    Withdrawal(row)
  }

  function ReversalRef(row: nat): Reference {
    Compensation(row)
  }

  // ----- Database transactions ---------------------------------------------------------------------------

  function SetStatus(st: Store, row: nat, status: TxStatus): Store
    requires row in st.rows
  {
    st.(rows := st.rows[row := st.rows[row].(status := status)])
  }

  /** Balances are recomputed from the whole history, and the debit is written with the PENDING row. */
  ghost function Initialize(st: Store, row: nat, user: nat, amount: int): Result<Store, LedgerError> {
    if amount < MIN_WITHDRAWAL then Failure(AmountNotPositive)
    else if Of(user) !in st.wallets then Failure(UnknownWallet)
    else if row in st.rows then Failure(DuplicateEntry)
    else
      match A.Attempt(st.wallets[Of(user)], A.HistoryDebit(amount, DebitRef(row), Row(row)))
      case Failure(e) => Failure(e)
      case Success(w) =>
        Success(st.(wallets := st.wallets[Of(user) := w], rows := st.rows[row := TransferRow(user, amount, Pending)]))
  }

  /** The compensating credit, stopped only by the ledger's unique key; the status is not looked at. The two
      callers differ in where the balance comes from. */
  ghost function Reverse(st: Store, row: nat, fromHistory: bool): Result<Store, LedgerError>
    requires row in st.rows
  {
    var id := Of(st.rows[row].user);
    if id !in st.wallets then Failure(UnknownWallet)
    else
      var amount := st.rows[row].amount;
      var op := if fromHistory then A.HistoryCredit(amount, ReversalRef(row), Row(row))
                else A.SnapshotCredit(amount, ReversalRef(row), SourceType.Reversal, Row(row));
      match A.Attempt(st.wallets[id], op)
      case Failure(e) => Failure(e)
      case Success(w) => Success(SetStatus(st.(wallets := st.wallets[id := w]), row, Failed))
  }

  // ----- Interleavings -------------------------------------------------------------------------------------

  /** Where a handler stands. Calling and Reversing belong to the request that made the debit, the next three to
      a webhook, the last to a reconciliation that takes the row for a payment. */
  datatype Phase =
    | Calling(row: nat)
    | Reversing(row: nat)
    | Received(row: nat, confirmed: bool)
    | RowRead(row: nat, confirmed: bool)
    | Releasing(row: nat)
    | FailingRead(row: nat)

  datatype Site = Site(store: Store, handlers: map<nat, Phase>)

  datatype Step =
    | Other(id: WalletId, op: A.Op)
    | Request(h: nat, row: nat, user: nat, amount: int)
    | Accepted(h: nat)
    | Refused(h: nat)
    | Deliver(h: nat, row: nat, confirmed: bool)
    | Reconcile(h: nat, row: nat)
    | Read(h: nat)
    | Commit(h: nat)

  function Become(s: Site, h: nat, phase: Phase): Site {
    s.(handlers := s.handlers[h := phase])
  }

  function Finish(s: Site, h: nat): Site {
    s.(handlers := s.handlers - {h})
  }

  predicate IsPending(st: Store, row: nat) {
    row in st.rows && st.rows[row].status.Pending?
  }

  predicate Ours(ref: Reference) {
    ref.Withdrawal? || ref.Compensation? || (ref.ReversalOf? && ref.original.Withdrawal?)
  }

  /** Every other writer of the ledger. An administrator's reversal of a withdrawal's debit is not among them. */
  predicate Unrelated(w: Wallet, op: A.Op) {
    match op
    case Managed(p) => !Ours(p.ref)
    case Reverse(i) => i < |w.entries| ==> !Ours(w.entries[i].ref)
    case SnapshotCredit(_, ref, _, _) => !Ours(ref)
    case HistoryDebit(_, ref, _) => !Ours(ref)
    case HistoryCredit(_, ref, _) => !Ours(ref)
  }

  ghost function Committing(s: Site, h: nat, phase: Phase): Site {
    match phase
    case Reversing(row) =>
      if row !in s.store.rows then Finish(s, h)
      else
        (match Reverse(s.store, row, true)
         case Success(st) => Finish(s.(store := st), h)
         case Failure(_) => Finish(s, h))
    case RowRead(row, confirmed) =>
      if row !in s.store.rows then Become(s, h, Releasing(row))
      else if confirmed then Finish(s.(store := SetStatus(s.store, row, Succeeded)), h)
      else
        (match Reverse(s.store, row, false)
         case Success(st) => Finish(s.(store := st), h)
         case Failure(_) => Become(s, h, Releasing(row)))
    case Releasing(row) => Finish(s.(store := s.store.(markers := s.store.markers - {row})), h)
    case FailingRead(row) =>
      if row !in s.store.rows then Finish(s, h) else Finish(s.(store := SetStatus(s.store, row, Failed)), h)
    case _ => s
  }

  /** The provider may refuse, time out, or accept and be followed by an error of our own: each of the last
      three sends the request down the reversal path. */
  ghost function Next(s: Site, step: Step): Site {
    match step
    case Other(id, op) =>
      if id in s.store.wallets && Unrelated(s.store.wallets[id], op) && A.Attempt(s.store.wallets[id], op).Success? then
        s.(store := s.store.(wallets := s.store.wallets[id := A.Attempt(s.store.wallets[id], op).value]))
      else s
    case Request(h, row, user, amount) =>
      if h in s.handlers then s
      else
        (match Initialize(s.store, row, user, amount)
         case Success(st) => Become(s.(store := st), h, Calling(row))
         case Failure(_) => s)
    case Accepted(h) => if h in s.handlers && s.handlers[h].Calling? then Finish(s, h) else s
    case Refused(h) =>
      if h in s.handlers && s.handlers[h].Calling? then Become(s, h, Reversing(s.handlers[h].row)) else s
    case Deliver(h, row, confirmed) =>
      if h in s.handlers || row in s.store.markers then s
      else Become(s.(store := s.store.(markers := s.store.markers + {row})), h, Received(row, confirmed))
    case Reconcile(h, row) => if h !in s.handlers && IsPending(s.store, row) then Become(s, h, FailingRead(row)) else s
    case Read(h) =>
      if h in s.handlers && s.handlers[h].Received? then
        if IsPending(s.store, s.handlers[h].row) then Become(s, h, RowRead(s.handlers[h].row, s.handlers[h].confirmed))
        else Finish(s, h)
      else s
    case Commit(h) => if h in s.handlers then Committing(s, h, s.handlers[h]) else s
  }

  ghost function Run(s: Site, steps: seq<Step>): Site
    decreases |steps|
  {
    if |steps| == 0 then s else Run(Next(s, steps[0]), steps[1..])
  }

  // ----- What a withdrawal has done to a wallet -----------------------------------------------------------

  predicate Concerns(e: Entry, row: nat) {
    e.ref == DebitRef(row) || e.ref == ReversalRef(row) || e.ref == ReversalOf(DebitRef(row))
  }

  /** The signed sum of a withdrawal's own entries. */
  function Effect(es: seq<Entry>, row: nat): int {
    if |es| == 0 then 0
    else
      var e := es[|es| - 1];
      Effect(es[..|es| - 1], row) + if Concerns(e, row) then Delta(e.kind, e.amount) else 0
  }

  predicate Reversed(es: seq<Entry>, row: nat) {
    HasKey(es, ReversalRef(row), SourceType.Reversal, Row(row))
  }

  lemma {:induction false} EffectAppend(es: seq<Entry>, e: Entry, row: nat)
    ensures Effect(es + [e], row) == Effect(es, row) + if Concerns(e, row) then Delta(e.kind, e.amount) else 0
    ensures Reversed(es + [e], row) <==>
      Reversed(es, row) || (e.ref == ReversalRef(row) && e.source.Reversal? && e.sourceId == Row(row))
  {
    var after := es + [e];
    assert after[|es|] == e && after[..|es|] == es;
    forall i | 0 <= i < |es| ensures after[i] == es[i] {
    }
  }

  /** The row's own wallet carries the debit, and the reversal if there is one; every other wallet nothing. */
  predicate Accounted(st: Store, id: WalletId, row: nat)
    requires id in st.wallets
  {
    var es := st.wallets[id].entries;
    if row in st.rows && id == Of(st.rows[row].user) then
      Effect(es, row) == if Reversed(es, row) then 0 else 0 - st.rows[row].amount
    else Effect(es, row) == 0 && !Reversed(es, row)
  }

  ghost predicate Good(st: Store) {
    && (forall id, row :: id in st.wallets ==> Accounted(st, id, row))
    && (forall row :: row in st.rows ==> st.rows[row].amount > 0 && Of(st.rows[row].user) in st.wallets)
  }

  /** st' is st with one entry more, and rows that may have changed their status. */
  ghost predicate Appended(st: Store, id: WalletId, e: Entry, st': Store) {
    && id in st.wallets && st'.wallets.Keys == st.wallets.Keys
    && st'.wallets[id].entries == st.wallets[id].entries + [e]
    && (forall o :: o in st.wallets && o != id ==> st'.wallets[o] == st.wallets[o])
    && !HasKey(st.wallets[id].entries, e.ref, e.source, e.sourceId)
  }

  ghost predicate SameRows(st: Store, st': Store) {
    && st'.rows.Keys == st.rows.Keys
    && forall r :: r in st.rows ==> st'.rows[r].user == st.rows[r].user && st'.rows[r].amount == st.rows[r].amount
  }

  lemma {:induction false} UnrelatedKeeps(st: Store, id: WalletId, e: Entry, st': Store)
    requires Good(st) && Appended(st, id, e, st') && !Ours(e.ref) && SameRows(st, st')
    ensures Good(st')
  {
    hide Effect, HasKey, Reversed;
    forall o, row | o in st'.wallets ensures Accounted(st', o, row) {
      assert Accounted(st, o, row);
      EffectAppend(st.wallets[id].entries, e, row);
    }
  }

  lemma {:induction false} ReversalKeeps(st: Store, row: nat, e: Entry, st': Store)
    requires Good(st) && row in st.rows && Appended(st, Of(st.rows[row].user), e, st') && SameRows(st, st')
    requires e.ref == ReversalRef(row) && e.source.Reversal? && e.sourceId == Row(row)
    requires e.kind.Credit? && e.amount == st.rows[row].amount
    ensures Good(st')
    ensures !Reversed(st.wallets[Of(st.rows[row].user)].entries, row)
    ensures Reversed(st'.wallets[Of(st.rows[row].user)].entries, row)
  {
    hide Effect, HasKey;
    var id := Of(st.rows[row].user);
    assert Accounted(st, id, row);
    EffectAppend(st.wallets[id].entries, e, row);
    forall o, r | o in st'.wallets ensures Accounted(st', o, r) {
      assert Accounted(st, o, r);
      EffectAppend(st.wallets[id].entries, e, r);
    }
  }

  lemma {:induction false} DebitKeeps(st: Store, row: nat, user: nat, amount: nat, e: Entry, st': Store)
    requires Good(st) && row !in st.rows && amount > 0 && Appended(st, Of(user), e, st')
    requires e.ref == DebitRef(row) && e.kind.Debit? && e.amount == amount
    requires st'.rows == st.rows[row := TransferRow(user, amount, Pending)]
    ensures Good(st')
    ensures !Reversed(st'.wallets[Of(user)].entries, row)
  {
    hide Effect, HasKey, Reversed;
    assert Accounted(st, Of(user), row);
    EffectAppend(st.wallets[Of(user)].entries, e, row);
    forall o, r | o in st'.wallets ensures Accounted(st', o, r) {
      assert Accounted(st, o, r);
      EffectAppend(st.wallets[Of(user)].entries, e, r);
    }
  }

  // ----- Each transaction --------------------------------------------------------------------------------

  lemma {:induction false} AttemptAppends(w: Wallet, op: A.Op, w': Wallet)
    requires A.Attempt(w, op) == Success(w')
    ensures |w'.entries| == |w.entries| + 1
    ensures var e := w'.entries[|w.entries|];
      && w'.entries == w.entries + [e]
      && !HasKey(w.entries, e.ref, e.source, e.sourceId)
      && (Unrelated(w, op) ==> !Ours(e.ref))
      && (op.HistoryDebit? ==> e.ref == op.ref && e.kind.Debit? && e.amount == op.amount)
      && (op.HistoryCredit? ==> e.ref == op.ref && e.kind.Credit? && e.amount == op.amount)
      && (op.HistoryCredit? ==> e.source.Reversal? && e.sourceId == op.sourceId)
      && (op.SnapshotCredit? ==> e.ref == op.ref && e.kind.Credit? && e.amount == op.amount)
      && (op.SnapshotCredit? ==> e.source == op.source && e.sourceId == op.sourceId)
  {
    hide HasKey, Balance, Reserved, Available;
  }

  lemma {:induction false} InitializeKeeps(st: Store, row: nat, user: nat, amount: int, st': Store)
    requires Good(st) && Initialize(st, row, user, amount) == Success(st')
    ensures Good(st') && st'.markers == st.markers && row !in st.rows
    ensures st'.rows == st.rows[row := TransferRow(user, amount, Pending)]
    ensures !Reversed(st'.wallets[Of(user)].entries, row)
    ensures forall o, r :: o in st.wallets && r in st.rows ==>
      o in st'.wallets && (Reversed(st'.wallets[o].entries, r) <==> Reversed(st.wallets[o].entries, r))
  {
    hide Good, A.Attempt, HasKey, Reversed;
    var w, w' := st.wallets[Of(user)], st'.wallets[Of(user)];
    AttemptAppends(w, A.HistoryDebit(amount, DebitRef(row), Row(row)), w');
    DebitKeeps(st, row, user, amount, w'.entries[|w.entries|], st');
    forall r {
      EffectAppend(w.entries, w'.entries[|w.entries|], r);
    }
  }

  lemma {:induction false} ReverseKeeps(st: Store, row: nat, fromHistory: bool, st': Store)
    requires Good(st) && row in st.rows && Reverse(st, row, fromHistory) == Success(st')
    ensures Good(st') && SameRows(st, st') && st'.markers == st.markers
    ensures st'.rows == st.rows[row := st.rows[row].(status := Failed)]
    ensures var id := Of(st.rows[row].user);
      && id in st.wallets && id in st'.wallets
      && !Reversed(st.wallets[id].entries, row) && Reversed(st'.wallets[id].entries, row)
    ensures forall o, r :: o in st.wallets && r != row ==>
      o in st'.wallets && (Reversed(st'.wallets[o].entries, r) <==> Reversed(st.wallets[o].entries, r))
  {
    hide Good, A.Attempt, HasKey, Reversed;
    var id := Of(st.rows[row].user);
    var w, w' := st.wallets[id], st'.wallets[id];
    var amount := st.rows[row].amount;
    AttemptAppends(w, if fromHistory then A.HistoryCredit(amount, ReversalRef(row), Row(row))
                      else A.SnapshotCredit(amount, ReversalRef(row), SourceType.Reversal, Row(row)), w');
    ReversalKeeps(st, row, w'.entries[|w.entries|], st');
    forall r {
      EffectAppend(w.entries, w'.entries[|w.entries|], r);
    }
  }

  lemma {:induction false} StatusKeeps(st: Store, st': Store)
    requires Good(st) && SameRows(st, st') && st'.wallets == st.wallets
    ensures Good(st')
  {
    hide Effect, Reversed;
    forall o, row | o in st'.wallets ensures Accounted(st', o, row) {
      assert Accounted(st, o, row);
    }
  }

  lemma {:induction false} OtherKeeps(st: Store, id: WalletId, op: A.Op, st': Store)
    requires Good(st) && id in st.wallets && Unrelated(st.wallets[id], op) && A.Attempt(st.wallets[id], op).Success?
    requires st' == st.(wallets := st.wallets[id := A.Attempt(st.wallets[id], op).value])
    ensures Good(st')
    ensures forall o, r :: o in st.wallets ==>
      o in st'.wallets && (Reversed(st'.wallets[o].entries, r) <==> Reversed(st.wallets[o].entries, r))
  {
    hide Good, A.Attempt, HasKey, Reversed, Unrelated;
    var w, w' := st.wallets[id], st'.wallets[id];
    AttemptAppends(w, op, w');
    UnrelatedKeeps(st, id, w'.entries[|w.entries|], st');
    forall r {
      EffectAppend(w.entries, w'.entries[|w.entries|], r);
    }
  }

  lemma {:induction false} CommitKeeps(s: Site, h: nat)
    requires Good(s.store) && h in s.handlers
    ensures Good(Committing(s, h, s.handlers[h]).store)
  {
    hide Good, Reverse;
    match s.handlers[h]
    case Reversing(row) =>
      if row in s.store.rows && Reverse(s.store, row, true).Success? {
        ReverseKeeps(s.store, row, true, Reverse(s.store, row, true).value);
      }
    case RowRead(row, confirmed) =>
      if row in s.store.rows {
        if confirmed {
          StatusKeeps(s.store, SetStatus(s.store, row, Succeeded));
        } else if Reverse(s.store, row, false).Success? {
          ReverseKeeps(s.store, row, false, Reverse(s.store, row, false).value);
        }
      }
    case Releasing(row) => StatusKeeps(s.store, s.store.(markers := s.store.markers - {row}));
    case FailingRead(row) =>
      if row in s.store.rows {
        StatusKeeps(s.store, SetStatus(s.store, row, Failed));
      }
    case _ =>
  }

  lemma {:induction false} NextKeeps(s: Site, step: Step)
    requires Good(s.store)
    ensures Good(Next(s, step).store)
  {
    hide Good, Committing, Initialize, A.Attempt, Unrelated;
    match step
    case Other(id, op) =>
      if id in s.store.wallets && Unrelated(s.store.wallets[id], op) && A.Attempt(s.store.wallets[id], op).Success? {
        OtherKeeps(s.store, id, op, Next(s, step).store);
      }
    case Request(h, row, user, amount) =>
      if Initialize(s.store, row, user, amount).Success? {
        InitializeKeeps(s.store, row, user, amount, Initialize(s.store, row, user, amount).value);
      }
    case Deliver(h, row, confirmed) => StatusKeeps(s.store, s.store.(markers := s.store.markers + {row}));
    case Commit(h) => if h in s.handlers { CommitKeeps(s, h); }
    case _ =>
  }

  lemma {:induction false} RunKeeps(s: Site, steps: seq<Step>)
    requires Good(s.store)
    ensures Good(Run(s, steps).store)
    decreases |steps|
  {
    hide Good, Next;
    if |steps| > 0 {
      NextKeeps(s, steps[0]);
      RunKeeps(Next(s, steps[0]), steps[1..]);
    }
  }
}
