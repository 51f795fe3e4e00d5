/** Every writer of the ledger, run in any order on one wallet. */
module Audit {
  import opened Wrappers
  import opened Ledger
  import opened LedgerServices

  /** The five ways an entry reaches a wallet. Managed goes through the ledger service. The other
      services insert the row themselves: provider credits and provider-side reversals read the latest
      snapshot, withdrawals and their local reversals sum the whole history. */
  datatype Op =
    | Managed(p: Params)
    | Reverse(i: nat)
    | SnapshotCredit(amount: nat, ref: Reference, source: SourceType, sourceId: SourceId)
    | HistoryDebit(amount: nat, ref: Reference, sourceId: SourceId)
    | HistoryCredit(amount: nat, ref: Reference, sourceId: SourceId)

  /** A row inserted without the ledger service: only the table's unique key can stop it. */
  function Insert(w: Wallet, base: int, kind: EntryType, amount: int, ref: Reference,
                  source: SourceType, id: SourceId): Result<Wallet, LedgerError> {
    if HasKey(w.entries, ref, source, id) then Failure(DuplicateEntry)
    else Success(w.(entries := w.entries
      + [Entry(ref, kind, Main, amount, base, base + Delta(kind, amount), source, id)]))
  }

  ghost function Attempt(w: Wallet, op: Op): Result<Wallet, LedgerError> {
    match op
    case Managed(p) => Write(w, p)
    case Reverse(i) =>
      if i < |w.entries| then Write(w, ReversalParams(w.entries[i])) else Failure(UnknownWallet)
    case SnapshotCredit(amount, ref, source, id) => Insert(w, Balance(w), Credit, amount, ref, source, id)
    case HistoryDebit(amount, ref, id) =>
      if Net(w.entries) - Reserved(w) < amount then Failure(InsufficientFunds)
      else Insert(w, Net(w.entries), Debit, amount, ref, Transaction, id)
    case HistoryCredit(amount, ref, id) => Insert(w, Net(w.entries), Credit, amount, ref, SourceType.Reversal, id)
  }

  ghost function Apply(w: Wallet, op: Op): Wallet {
    var r := Attempt(w, op);
    if r.Success? then r.value else w
  }

  ghost function Run(w: Wallet, ops: seq<Op>): Wallet
    decreases |ops|
  {
    if |ops| == 0 then w else Run(Apply(w, ops[0]), ops[1..])
  }

  /** The amount a step releases from a bucket nothing was ever reserved in. */
  function Orphaned(w: Wallet, op: Op): int {
    if op.Managed? && op.p.amount > 0 && Orphan(w, op.p) && !op.p.bucket.value.Main?
       && !HasKey(w.entries, op.p.ref, op.p.source, op.p.sourceId)
    then op.p.amount else 0
  }

  ghost function OrphanedIn(w: Wallet, ops: seq<Op>): nat
    decreases |ops|
  {
    if |ops| == 0 then 0 else Orphaned(w, ops[0]) + OrphanedIn(Apply(w, ops[0]), ops[1..])
  }

  lemma {:induction false} InsertEffect(w: Wallet, base: int, kind: EntryType, amount: int, ref: Reference,
                     source: SourceType, id: SourceId)
    requires base == Balance(w) && !Holds(kind)
    requires Insert(w, base, kind, amount, ref, source, id).Success?
    ensures var w' := Insert(w, base, kind, amount, ref, source, id).value;
      && Balance(w') == Balance(w) + Delta(kind, amount)
      && Reserved(w') == Reserved(w)
      && (Chained(w.entries) ==> Chained(w'.entries))
      && Held(w'.entries) == Held(w.entries)
  {
    var e := Entry(ref, kind, Main, amount, base, base + Delta(kind, amount), source, id);
    HistoryAppend(w.entries, e);
    if Chained(w.entries) {
      ChainAppend(w, e);
    }
  }

  /** One step of any writer keeps the chain and moves the bucket drift by exactly the orphan. */
  lemma {:induction false} StepKeepsChain(w: Wallet, op: Op)
    requires Chained(w.entries)
    ensures var w' := Apply(w, op);
      && Chained(w'.entries)
      && Held(w'.entries) - Reserved(w') == Held(w.entries) - Reserved(w) - 2 * Orphaned(w, op)
      && (Available(w) >= 0 && Orphaned(w, op) == 0 ==> Available(w') >= 0)
  {
    BalanceIsNet(w);
    if Attempt(w, op).Success? {
      match op
      case Managed(p) => WriteEffect(w, p);
      case Reverse(i) => WriteEffect(w, ReversalParams(w.entries[i]));
      case SnapshotCredit(amount, ref, source, id) => InsertEffect(w, Balance(w), Credit, amount, ref, source, id);
      case HistoryDebit(amount, ref, id) => InsertEffect(w, Net(w.entries), Debit, amount, ref, Transaction, id);
      case HistoryCredit(amount, ref, id) =>
        InsertEffect(w, Net(w.entries), Credit, amount, ref, SourceType.Reversal, id);
    }
  }

  /** In every run of every writer the entries chain, the snapshot is the sum of the history, and
      the audit's bucket drift is exactly twice what was released without having been reserved. */
  lemma {:induction false} AuditEveryRun(w: Wallet, ops: seq<Op>)
    requires Chained(w.entries)
    ensures var w' := Run(w, ops);
      && Chained(w'.entries)
      && Balance(w') == Net(w'.entries)
      && Held(w'.entries) - Reserved(w') == Held(w.entries) - Reserved(w) - 2 * OrphanedIn(w, ops)
      && (Available(w) >= 0 && OrphanedIn(w, ops) == 0 ==> Available(w') >= 0)
    decreases |ops|
  {
    if |ops| == 0 {
      BalanceIsNet(w);
    } else {
      StepKeepsChain(w, ops[0]);
      AuditEveryRun(Apply(w, ops[0]), ops[1..]);
    }
  }

  /** So a wallet's audit is clean after a run from empty exactly when no release was an orphan. */
  lemma {:induction false} AuditCleanIffReleasesReserved(ops: seq<Op>)
    ensures var w := Run(Wallet([], map[]), ops);
      && (Sound(w) <==> OrphanedIn(Wallet([], map[]), ops) == 0)
      && (Sound(w) ==> Available(w) >= 0)
  {
    AuditEveryRun(Wallet([], map[]), ops);
  }
}
