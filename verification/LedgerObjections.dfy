/** Which entry a ledger refuses and why, told from the entries, and what a replay adds up. */
module LedgerObjections {
  import opened Wrappers
  import opened Ledgers

  ghost predicate Known(entries: seq<Entry>, id: EntryId) {
    exists i :: 0 <= i < |entries| && entries[i].id == id
  }

  /** The first thing wrong with the next entry: its number, then its identifier, then its time; or nothing is. */
  ghost predicate FirstFault(entries: seq<Entry>, e: Entry, error: Option<Error>) {
    match error
    case Some(WrongSequence) => e.sequence != |entries| + 1
    case Some(DuplicateId) => e.sequence == |entries| + 1 && Known(entries, e.id)
    case Some(MovesBackward) =>
      && e.sequence == |entries| + 1 && !Known(entries, e.id)
      && entries != [] && e.postedAt < entries[|entries| - 1].postedAt
    case Some(EmptyBatch) => false
    case None =>
      && e.sequence == |entries| + 1 && !Known(entries, e.id)
      && (entries == [] || e.postedAt >= entries[|entries| - 1].postedAt)
  }

  lemma OneFault(entries: seq<Entry>, e: Entry, x: Option<Error>, y: Option<Error>)
    requires FirstFault(entries, e, x) && FirstFault(entries, e, y)
    ensures x == y
  {
  }

  lemma ObjectionIsFirst(entries: seq<Entry>, e: Entry)
    ensures FirstFault(entries, e, Objection(entries, e))
  {
    assert Known(entries, e.id) <==> e.id in Ids(entries);
  }

  /** The batch can be appended up to entry `k`, which has that fault. */
  ghost predicate FaultAt(entries: seq<Entry>, batch: seq<Entry>, k: nat, error: Error) {
    k < |batch| && Sound(entries + batch[..k]) && FirstFault(entries + batch[..k], batch[k], Some(error))
  }

  lemma FaultLater(entries: seq<Entry>, batch: seq<Entry>, k: nat, error: Error)
    requires batch != [] && FaultAt(entries + [batch[0]], batch[1..], k, error)
    ensures FaultAt(entries, batch, k + 1, error)
  {
    assert entries + [batch[0]] + batch[1..][..k] == entries + batch[..k + 1];
  }

  /** A batch is refused for the first fault of the first of its entries that has one behind those before it. */
  lemma {:induction false} BatchRefusedFor(entries: seq<Entry>, batch: seq<Entry>)
    requires Sound(entries) && BatchObjection(entries, batch).Some?
    ensures exists k: nat :: FaultAt(entries, batch, k, BatchObjection(entries, batch).value)
    decreases |batch|
  {
    var first, rest := batch[0], batch[1..];
    ObjectionIsFirst(entries, first);
    AppendSound(entries, first);
    if Objection(entries, first).Some? {
      assert entries + batch[..0] == entries;
      assert FaultAt(entries, batch, 0, BatchObjection(entries, batch).value);
    } else {
      BatchRefusedFor(entries + [first], rest);
      var k: nat :| FaultAt(entries + [first], rest, k, BatchObjection(entries, batch).value);
      FaultLater(entries, batch, k, BatchObjection(entries, batch).value);
    }
  }

  // ----- What a replay adds up -----

  ghost function Total(entries: seq<Entry>, kind: Kind): nat {
    if entries == [] then 0
    else Total(entries[..|entries| - 1], kind) + (if entries[|entries| - 1].kind == kind then entries[|entries| - 1].cents else 0)
  }

  /** The balance is all credits less all debits. */
  lemma {:induction false} BalanceIsCreditsLessDebits(entries: seq<Entry>)
    ensures Balance(entries) == Total(entries, Credit) - Total(entries, Debit)
    decreases |entries|
  {
    if entries != [] {
      BalanceIsCreditsLessDebits(entries[..|entries| - 1]);
    }
  }

  /** An entry moves the balance of its own account and no other, up by a credit and down by a debit. */
  lemma EntryMovesItsAccount(entries: seq<Entry>, e: Entry, account: string)
    ensures AccountBalance(entries + [e], account) - AccountBalance(entries, account) ==
            if account != e.account then 0 else if e.kind == Credit then e.cents else -(e.cents as int)
  {
    BalanceAppend(entries, e);
  }
}
