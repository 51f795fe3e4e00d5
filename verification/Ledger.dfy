/** The append-only ledger: running balances, reserve buckets and the audit that recomputes both. */
module Ledger {
  import opened Wrappers
  import opened Totals

  datatype EntryType = Credit | Debit | Reserve | Release

  datatype BucketType = Main | Rosca | Target | Fixed | Remittance | HeldPayout

  datatype SourceType =
    | Transaction | RoscaCircle | Contribution | CollateralReserve | CollateralRelease
    | CollateralSeizure | Penalty | ExitPenalty | LiquidityBridge | BridgeRepayment | DebtRepayment
    | HeldPayoutDeposit | HeldPayoutRelease | TrustAdjustment | AdminAdjustment | Reversal | System
    | Loan | PlatformFee

  /** Row identifiers. A membership's identifier records the circle and user it was created for. */
  datatype SourceId = Row(id: nat) | Member(circle: nat, user: nat, nonce: nat)

  /** The label in front of an entry reference. */
  datatype Label =
    | CollRes | CollRel | Contrib | PoolCred | Pen | PoolPen | PoolDebit | PayoutRef | PlatformFeeRef
    | RevDebit | RevCred | LoanDisburse
    | FundingCard | FundingBankTransfer | FundingUssd | FundingAccount | FundingUnknown

  /** Drawn(l, n) is "l-uuid" for a UUID drawn by the n-th transaction that commits; Settled(l, t) is
      "l-t" for the row t of the transactions table; Virtual(f) is "VA-f" for a provider reference f;
      Withdrawal(t) is "WITHDRAWAL-uuid-DEBIT" and Compensation(t) is "REVERSAL-WITHDRAWAL-uuid"; ReversalOf(r) puts
      "REV-" in front. */
  datatype Reference =
    | Drawn(tag: Label, draw: nat)
    | Settled(channel: Label, row: nat)
    | Virtual(flwRef: nat)
    | Withdrawal(request: nat)
    | Compensation(request: nat)
    | ReversalOf(original: Reference)

  datatype BucketKey = Key(bucket: BucketType, source: SourceId)

  datatype Entry = Entry(
    ref: Reference, kind: EntryType, bucket: BucketType, amount: int,
    before: int, after: int, source: SourceType, sourceId: SourceId)

  datatype Wallet = Wallet(entries: seq<Entry>, buckets: map<BucketKey, int>)

  datatype Params = Params(
    kind: EntryType, bucket: Option<BucketType>, amount: int,
    ref: Reference, source: SourceType, sourceId: SourceId)

  datatype LedgerError =
    AmountNotPositive | BucketRequired | MustTargetMain | InsufficientFunds | DuplicateEntry | UnknownWallet

  /** One wallet per user, plus the platform pool, whose wallet belongs to no user who acts. */
  datatype WalletId = Pool | Of(user: nat)

  type Wallets = map<WalletId, Wallet>

  // ----- Balances -------------------------------------------------------------------------------

  /** The O(1) balance: the snapshot on the latest entry. */
  function Balance(w: Wallet): int {
    if |w.entries| == 0 then 0 else w.entries[|w.entries| - 1].after
  }

  ghost function Reserved(w: Wallet): int {
    Total(w.buckets, Same)
  }

  ghost function Available(w: Wallet): int {
    Balance(w) - Reserved(w)
  }

  /** The O(n) sum of the amounts of one entry type. */
  function Sum(es: seq<Entry>, kind: EntryType): int {
    if |es| == 0 then 0
    else
      var e := es[|es| - 1];
      Sum(es[..|es| - 1], kind) + if e.kind == kind then e.amount else 0
  }

  function Net(es: seq<Entry>): int {
    Sum(es, Credit) - Sum(es, Debit)
  }

  function Held(es: seq<Entry>): int {
    Sum(es, Reserve) - Sum(es, Release)
  }

  function Delta(kind: EntryType, amount: int): int {
    match kind
    case Credit => amount
    case Debit => -amount
    case Reserve | Release => 0
  }

  lemma {:induction false} SumAppend(es: seq<Entry>, e: Entry, kind: EntryType)
    ensures Sum(es + [e], kind) == Sum(es, kind) + if e.kind == kind then e.amount else 0
  {
    assert (es + [e])[..|es|] == es;
  }

  lemma {:induction false} HistoryAppend(es: seq<Entry>, e: Entry)
    ensures Net(es + [e]) == Net(es) + Delta(e.kind, e.amount)
    ensures Held(es + [e]) == Held(es) + if e.kind.Reserve? then e.amount else if e.kind.Release? then -e.amount else 0
  {
    SumAppend(es, e, Credit);
    SumAppend(es, e, Debit);
    SumAppend(es, e, Reserve);
    SumAppend(es, e, Release);
  }

  // ----- writeEntry -----------------------------------------------------------------------------

  predicate Holds(kind: EntryType) {
    kind.Reserve? || kind.Release?
  }

  /** The unique key of the ledger table, within one wallet. */
  predicate HasKey(es: seq<Entry>, ref: Reference, source: SourceType, id: SourceId) {
    exists i :: 0 <= i < |es| && es[i].ref == ref && es[i].source == source && es[i].sourceId == id
  }

  function BucketsAfter(buckets: map<BucketKey, int>, p: Params): map<BucketKey, int> {
    if !Holds(p.kind) || p.bucket.None? then buckets
    else
      var key := Key(p.bucket.value, p.sourceId);
      if key !in buckets then buckets[key := p.amount]  // the upsert's create branch, whatever the kind
      else buckets[key := buckets[key] + if p.kind.Reserve? then p.amount else -p.amount]
  }

  function EntryFor(balance: int, p: Params): Entry {
    Entry(p.ref, p.kind, if p.bucket.Some? then p.bucket.value else Main, p.amount,
          balance, balance + Delta(p.kind, p.amount), p.source, p.sourceId)
  }

  ghost function Write(w: Wallet, p: Params): Result<Wallet, LedgerError> {
    if p.amount <= 0 then Failure(AmountNotPositive)
    else if Holds(p.kind) && (p.bucket.None? || p.bucket.value.Main?) then Failure(BucketRequired)
    else if !Holds(p.kind) && p.bucket.Some? && !p.bucket.value.Main? then Failure(MustTargetMain)
    else if (p.kind.Debit? || p.kind.Reserve?) && p.amount > Available(w) then Failure(InsufficientFunds)
    else if HasKey(w.entries, p.ref, p.source, p.sourceId) then Failure(DuplicateEntry)
    else Success(Wallet(w.entries + [EntryFor(Balance(w), p)], BucketsAfter(w.buckets, p)))
  }

  ghost function Post(ws: Wallets, id: WalletId, p: Params): Result<Wallets, LedgerError> {
    if id !in ws then Failure(UnknownWallet)
    else
      var w :- Write(ws[id], p);
      Success(ws[id := w])
  }

  /** A RELEASE on a bucket that was never reserved: the upsert creates it with +amount. */
  predicate Orphan(w: Wallet, p: Params) {
    p.kind.Release? && p.bucket.Some? && Key(p.bucket.value, p.sourceId) !in w.buckets
  }

  /** How far a write moves the reserved total. */
  function Hold(w: Wallet, p: Params): int {
    match p.kind
    case Credit | Debit => 0
    case Reserve => p.amount
    case Release => if Orphan(w, p) then p.amount else -p.amount
  }

  // ----- The invariant every writer keeps ---------------------------------------------------------

  /** Each entry starts where the previous one ended and moves by its own amount. */
  predicate Chained(es: seq<Entry>) {
    && (|es| > 0 ==> es[0].before == 0)
    && (forall i :: 0 < i < |es| ==> es[i].before == es[i - 1].after)
    && (forall i :: 0 <= i < |es| ==> es[i].after == es[i].before + Delta(es[i].kind, es[i].amount))
  }

  ghost predicate Sound(w: Wallet) {
    Chained(w.entries) && Held(w.entries) == Reserved(w)
  }

  /** The snapshot on the latest entry is the sum of the whole history. */
  lemma {:induction false} SnapshotIsHistory(es: seq<Entry>)
    requires Chained(es)
    ensures Balance(Wallet(es, map[])) == Net(es)
    decreases |es|
  {
    if |es| > 0 {
      var front := es[..|es| - 1];
      SnapshotIsHistory(front);
    }
  }

  lemma {:induction false} BalanceIsNet(w: Wallet)
    requires Chained(w.entries)
    ensures Balance(w) == Net(w.entries)
  {
    SnapshotIsHistory(w.entries);
  }

  lemma {:induction false} ChainAppend(w: Wallet, e: Entry)
    requires Chained(w.entries)
    requires e.before == Balance(w) && e.after == e.before + Delta(e.kind, e.amount)
    ensures Chained(w.entries + [e])
  {
  }

  lemma {:induction false} BucketEffect(w: Wallet, p: Params)
    requires Holds(p.kind) ==> p.bucket.Some?
    ensures Total(BucketsAfter(w.buckets, p), Same) == Reserved(w) + Hold(w, p)
  {
    if Holds(p.kind) {
      var key := Key(p.bucket.value, p.sourceId);
      TotalUpdate(w.buckets, Same, key, BucketsAfter(w.buckets, p)[key]);
    }
  }

  /** A write is accepted exactly when its amount is positive, it names a bucket other than MAIN if and only if it
      reserves or releases, what it debits or reserves is there beside what is reserved already, and its key is new in
      the wallet. It appends one entry, from the latest snapshot to that plus a credit or less a debit. A reserve or
      release moves the bucket of its source, and creates it with the amount when there is none, even to release. */
  lemma {:induction false} WriteExactly(w: Wallet, p: Params)
    ensures Write(w, p).Success? <==>
      && p.amount > 0
      && (if p.kind.Reserve? || p.kind.Release? then p.bucket.Some? && p.bucket.value != Main
          else p.bucket.None? || p.bucket.value == Main)
      && (p.kind.Debit? || p.kind.Reserve? ==> p.amount <= Balance(w) - Total(w.buckets, Same))
      && (forall i :: 0 <= i < |w.entries| ==>
            !(w.entries[i].ref == p.ref && w.entries[i].source == p.source && w.entries[i].sourceId == p.sourceId))
    ensures Write(w, p).Success? ==>
      var after := Balance(w) + (if p.kind.Credit? then p.amount else if p.kind.Debit? then -p.amount else 0);
      var entry := Entry(p.ref, p.kind, if p.bucket.Some? then p.bucket.value else Main, p.amount, Balance(w), after,
        p.source, p.sourceId);
      var w' := Write(w, p).value;
      && w'.entries == w.entries + [entry]
      && (p.kind.Credit? || p.kind.Debit? ==> w'.buckets == w.buckets)
      && (p.kind.Reserve? || p.kind.Release? ==>
           var key := Key(p.bucket.value, p.sourceId);
           w'.buckets == w.buckets[key :=
             if key !in w.buckets then p.amount
             else w.buckets[key] + if p.kind.Reserve? then p.amount else -p.amount])
  {
    hide Balance, Total;
  }

  /** What one successful write does: the balance moves by the signed amount, the reserved total by
      the hold, and the audit drift appears exactly when the write is an orphan release. */
  lemma {:induction false} WriteEffect(w: Wallet, p: Params)
    requires Write(w, p).Success?
    ensures var w' := Write(w, p).value;
      && Balance(w') == Balance(w) + Delta(p.kind, p.amount)
      && Reserved(w') == Reserved(w) + Hold(w, p)
      && (Chained(w.entries) ==> Chained(w'.entries))
      && Held(w'.entries) - Reserved(w') == Held(w.entries) - Reserved(w) - (if Orphan(w, p) then 2 * p.amount else 0)
      && (Available(w) >= 0 && !Orphan(w, p) ==> Available(w') >= 0)
  {
    var e := EntryFor(Balance(w), p);
    HistoryAppend(w.entries, e);
    BucketEffect(w, p);
    if Chained(w.entries) {
      ChainAppend(w, e);
    }
  }
}
