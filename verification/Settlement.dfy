/** Crediting a payment: webhook deliveries, background jobs, user checks and manual reconciliations racing on
    one transaction row. Each database transaction is one step, and so is each read made before it. */
module Settlement {
  import opened Wrappers
  import opened Ledger
  import A = Audit

  datatype TxStatus = Pending | Succeeded | Failed

  datatype FundingRow = FundingRow(user: nat, amount: int, status: TxStatus)

  /** What a tx_ref names: a checkout session's own row, or a user's permanent virtual account. */
  datatype TxRef = Checkout(row: nat) | Account(va: nat)

  /** A webhook's identity, the key of its idempotency marker. */
  datatype Event = Event(txRef: TxRef, flwRef: nat)

  datatype Charge = Charge(event: Event, successful: bool, transfer: bool, paymentType: Option<string>)

  /** accounts maps a virtual account to its user. */
  datatype Store = Store(wallets: Wallets, rows: map<nat, FundingRow>, accounts: map<nat, nat>, markers: set<Event>)

  // ----- Provider answers ----------------------------------------------------------------------------------

  datatype ChargeStatus = Successful | Unsuccessful | Undecided

  datatype Report = Report(status: ChargeStatus, txRef: TxRef, naira: bool, amount: int, paymentType: Option<string>)

  /** The label of a payment type that is already lower case and trimmed. */
  function MethodLabel(paymentType: Option<string>): Label {
    match paymentType
    case None => FundingUnknown
    case Some(t) =>
      if t == "card" then FundingCard
      else if t == "bank_transfer" || t == "banktransfer" then FundingBankTransfer
      else if t == "ussd" then FundingUssd
      else if t == "account" then FundingAccount
      else FundingUnknown
  }

  /** The verified amount, unless the provider's record differs from what the webhook claimed. */
  function VerifyCharge(report: Report, expected: Option<int>, txRef: TxRef): Option<int> {
    if !report.status.Successful? || report.txRef != txRef || !report.naira then None
    else if expected.Some? && expected.value != report.amount then None
    else Some(report.amount)
  }

  /** The verified payment type, or the webhook's own when the provider names none. */
  function SettledType(charge: Charge, report: Report): Option<string> {
    if report.paymentType.Some? then report.paymentType else charge.paymentType
  }

  /** What a reconciliation hears: an error, perhaps because a record is long missing, a refusal, or a record. */
  datatype Answer = Error(missingTooLong: bool) | Refused | Found(report: Report)

  datatype Decision = Settle(tag: Label, amount: int) | MarkFailed | LeaveIt

  function Decide(answer: Answer, row: nat, amount: int): Decision {
    match answer
    case Error(missingTooLong) => if missingTooLong then MarkFailed else LeaveIt
    case Refused => LeaveIt
    case Found(report) =>
      if report.txRef != Checkout(row) then LeaveIt
      else if !report.naira then MarkFailed
      else
        match report.status
        case Successful =>
          if report.amount < amount then MarkFailed else Settle(MethodLabel(report.paymentType), report.amount)
        case Unsuccessful => MarkFailed
        case Undecided => LeaveIt
  }

  // ----- Database transactions -----------------------------------------------------------------------------

  function SetStatus(st: Store, row: nat, status: TxStatus): Store
    requires row in st.rows
  {
    st.(rows := st.rows[row := st.rows[row].(status := status)])
  }

  predicate IsPending(st: Store, row: nat) {
    row in st.rows && st.rows[row].status.Pending?
  }

  /** A credit on top of the latest snapshot, stopped only by the ledger's unique key. */
  function CreditTo(st: Store, user: nat, amount: int, ref: Reference, source: nat): Result<Store, LedgerError> {
    if Of(user) !in st.wallets then Failure(UnknownWallet)
    else
      var w := st.wallets[Of(user)];
      match A.Insert(w, Balance(w), Credit, amount, ref, Transaction, Row(source))
      case Failure(e) => Failure(e)
      case Success(w') => Success(st.(wallets := st.wallets[Of(user) := w']))
  }

  /** The last step of both settling paths: the status is not looked at again. */
  function CreditCheckout(st: Store, row: nat, amount: int, tag: Label): Result<Store, LedgerError>
    requires row in st.rows
  {
    var st' :- CreditTo(st, st.rows[row].user, amount, Settled(tag, row), row);
    Success(SetStatus(st', row, Succeeded))
  }

  predicate HasReference(es: seq<Entry>, ref: Reference) {
    exists i :: 0 <= i < |es| && es[i].ref == ref
  }

  /** A second credit for the same provider reference is skipped without an error. */
  function CreditAccount(st: Store, va: nat, amount: int, flwRef: nat): Result<Store, LedgerError>
    requires va in st.accounts
  {
    var user := st.accounts[va];
    if Of(user) in st.wallets && HasReference(st.wallets[Of(user)].entries, Virtual(flwRef)) then Success(st)
    else CreditTo(st, user, amount, Virtual(flwRef), va)
  }

  /** Touches the row only while it is PENDING, in one statement. */
  function FailPending(st: Store, txRef: TxRef): Store {
    if txRef.Checkout? && IsPending(st, txRef.row) then SetStatus(st, txRef.row, Failed) else st
  }

  // ----- Interleavings -------------------------------------------------------------------------------------

  /** Where a handler stands between two steps. The first six belong to a webhook delivery, the others to
      a reconciliation. */
  datatype Phase =
    | Received(charge: Charge)
    | RowRead(charge: Charge, row: nat, amount: int)
    | AccountRead(charge: Charge, va: nat)
    | Verified(charge: Charge, row: nat, amount: int, tag: Label)
    | AccountVerified(charge: Charge, va: nat, amount: int)
    | Mismatched(charge: Charge)
    | Releasing(charge: Charge)
    | Asked(row: nat, amount: int)
    | Settling(row: nat, amount: int, tag: Label)
    | SettlingRead(row: nat, amount: int, tag: Label)
    | Failing(row: nat)
    | FailingRead(row: nat)

  datatype Site = Site(store: Store, handlers: map<nat, Phase>)

  datatype Step =
    | Other(id: WalletId, op: A.Op)
    | Initialize(row: nat, user: nat, amount: int)
    | Deliver(h: nat, charge: Charge)
    | Reconcile(h: nat, row: nat)
    | Read(h: nat)
    | Verify(h: nat, report: Report)
    | Reply(h: nat, answer: Answer)
    | Commit(h: nat)
    | Crash(h: nat)

  predicate ForWebhook(phase: Phase) {
    phase.Received? || phase.RowRead? || phase.AccountRead? || phase.Verified? || phase.AccountVerified?
    || phase.Mismatched? || phase.Releasing?
  }

  function Become(s: Site, h: nat, phase: Phase): Site {
    s.(handlers := s.handlers[h := phase])
  }

  function Finish(s: Site, h: nat): Site {
    s.(handlers := s.handlers - {h})
  }

  /** Every other writer of the ledger: it never uses a settlement's references. */
  predicate Unrelated(op: A.Op) {
    match op
    case Managed(p) => !p.ref.Settled? && !p.ref.Virtual?
    case Reverse(_) => true
    case SnapshotCredit(_, ref, _, _) => !ref.Settled? && !ref.Virtual?
    case HistoryDebit(_, ref, _) => !ref.Settled? && !ref.Virtual?
    case HistoryCredit(_, ref, _) => !ref.Settled? && !ref.Virtual?
  }

  function Reading(s: Site, h: nat, phase: Phase): Site {
    match phase
    case Received(charge) =>
      var txRef := charge.event.txRef;
      if !charge.successful then Become(s, h, Mismatched(charge))
      else if charge.transfer && txRef.Account? && txRef.va in s.store.accounts then
        Become(s, h, AccountRead(charge, txRef.va))
      else if txRef.Checkout? && IsPending(s.store, txRef.row) then
        Become(s, h, RowRead(charge, txRef.row, s.store.rows[txRef.row].amount))
      else Finish(s, h)
    case Settling(row, amount, tag) =>
      if IsPending(s.store, row) then Become(s, h, SettlingRead(row, amount, tag)) else Finish(s, h)
    case Failing(row) =>
      if IsPending(s.store, row) then Become(s, h, FailingRead(row)) else Finish(s, h)
    case _ => s
  }

  function Verifying(s: Site, h: nat, phase: Phase, report: Report): Site {
    match phase
    case RowRead(charge, row, amount) =>
      (match VerifyCharge(report, Some(amount), charge.event.txRef)
       case Some(paid) => Become(s, h, Verified(charge, row, paid, MethodLabel(SettledType(charge, report))))
       case None => Become(s, h, Mismatched(charge)))
    case AccountRead(charge, va) =>
      (match VerifyCharge(report, None, charge.event.txRef)
       case Some(paid) => Become(s, h, AccountVerified(charge, va, paid))
       case None => Finish(s, h))
    case _ => s
  }

  function Replying(s: Site, h: nat, phase: Phase, answer: Answer): Site {
    match phase
    case Asked(row, amount) =>
      (match Decide(answer, row, amount)
       case Settle(tag, paid) => Become(s, h, Settling(row, paid, tag))
       case MarkFailed => Become(s, h, Failing(row))
       case LeaveIt => Finish(s, h))
    case _ => s
  }

  /** A webhook whose transaction fails still has its marker to release; a reconciliation just ends. */
  function Committing(s: Site, h: nat, phase: Phase): Site {
    match phase
    case Verified(charge, row, amount, tag) =>
      if row !in s.store.rows then Become(s, h, Releasing(charge))
      else
        (match CreditCheckout(s.store, row, amount, tag)
         case Success(st) => Finish(s.(store := st), h)
         case Failure(_) => Become(s, h, Releasing(charge)))
    case AccountVerified(charge, va, amount) =>
      if va !in s.store.accounts then Become(s, h, Releasing(charge))
      else
        (match CreditAccount(s.store, va, amount, charge.event.flwRef)
         case Success(st) => Finish(s.(store := st), h)
         case Failure(_) => Become(s, h, Releasing(charge)))
    case Mismatched(charge) => Finish(s.(store := FailPending(s.store, charge.event.txRef)), h)
    case Releasing(charge) => Finish(s.(store := s.store.(markers := s.store.markers - {charge.event})), h)
    case SettlingRead(row, amount, tag) =>
      if row !in s.store.rows then Finish(s, h)
      else
        (match CreditCheckout(s.store, row, amount, tag)
         case Success(st) => Finish(s.(store := st), h)
         case Failure(_) => Finish(s, h))
    case FailingRead(row) =>
      if row !in s.store.rows then Finish(s, h) else Finish(s.(store := SetStatus(s.store, row, Failed)), h)
    case _ => s
  }

  function Crashing(s: Site, h: nat, phase: Phase): Site {
    if ForWebhook(phase) && !phase.Releasing? then Become(s, h, Releasing(phase.charge)) else Finish(s, h)
  }

  /** A step that is not possible changes nothing. */
  ghost function Next(s: Site, step: Step): Site {
    match step
    case Other(id, op) =>
      if id in s.store.wallets && Unrelated(op) && A.Attempt(s.store.wallets[id], op).Success? then
        s.(store := s.store.(wallets := s.store.wallets[id := A.Attempt(s.store.wallets[id], op).value]))
      else s
    case Initialize(row, user, amount) =>
      if row !in s.store.rows && amount > 0 && Of(user) in s.store.wallets then
        s.(store := s.store.(rows := s.store.rows[row := FundingRow(user, amount, Pending)]))
      else s
    case Deliver(h, charge) =>
      if h in s.handlers || charge.event in s.store.markers then s
      else Become(s.(store := s.store.(markers := s.store.markers + {charge.event})), h, Received(charge))
    case Reconcile(h, row) =>
      if h !in s.handlers && IsPending(s.store, row) then Become(s, h, Asked(row, s.store.rows[row].amount)) else s
    case Read(h) => if h in s.handlers then Reading(s, h, s.handlers[h]) else s
    case Verify(h, report) => if h in s.handlers then Verifying(s, h, s.handlers[h], report) else s
    case Reply(h, answer) => if h in s.handlers then Replying(s, h, s.handlers[h], answer) else s
    case Commit(h) => if h in s.handlers then Committing(s, h, s.handlers[h]) else s
    case Crash(h) => if h in s.handlers then Crashing(s, h, s.handlers[h]) else s
  }

  ghost function Run(s: Site, steps: seq<Step>): Site
    decreases |steps|
  {
    if |steps| == 0 then s else Run(Next(s, steps[0]), steps[1..])
  }
}
