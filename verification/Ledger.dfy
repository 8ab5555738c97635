/** The append-only ledger: contiguous sequence numbers, unique identifiers, time that never moves backward. */
module Ledgers {
  import opened Wrappers

  datatype Kind = Credit | Debit

  /**
   The identifiers of entries: "OPEN"; those the program builds by the suffixes
   SETTLEMENT, DEBIT, DELIVERY and CREDIT, equal only if built alike; any other.
   */
  datatype EntryId =
    | Opening
    | Settlement(payment: string)
    | PaymentDebit(payment: string)
    | DeliveryDebit(request: string, number: nat)
    | ReturnCredit(ret: string)
    | Other(name: string)

  datatype Entry = Entry(id: EntryId, account: string, cents: nat, kind: Kind, sequence: int, postedAt: nat)

  datatype Error = WrongSequence | DuplicateId | MovesBackward | EmptyBatch

  function Ids(entries: seq<Entry>): set<EntryId> {
    set i | 0 <= i < |entries| :: entries[i].id
  }

  lemma IdsAppend(entries: seq<Entry>, e: Entry)
    ensures Ids(entries + [e]) == Ids(entries) + {e.id}
  {
    assert (entries + [e])[|entries|] == e;
    assert forall i :: 0 <= i < |entries| ==> (entries + [e])[i] == entries[i];
  }

  /** What `append` objects to, if anything; the checks are made in this order. */
  function Objection(entries: seq<Entry>, e: Entry): Option<Error> {
    if e.sequence != |entries| + 1 then Some(WrongSequence)
    else if e.id in Ids(entries) then Some(DuplicateId)
    else if entries != [] && e.postedAt < entries[|entries| - 1].postedAt then Some(MovesBackward)
    else None
  }

  /** The history a ledger can have. */
  ghost predicate Sound(entries: seq<Entry>) {
    && (forall i :: 0 <= i < |entries| ==> entries[i].sequence == i + 1)
    && (forall i, j :: 0 <= i < j < |entries| ==> entries[i].id != entries[j].id)
    && (forall i, j :: 0 <= i < j < |entries| ==> entries[i].postedAt <= entries[j].postedAt)
  }

  lemma AppendSound(entries: seq<Entry>, e: Entry)
    requires Sound(entries)
    ensures Objection(entries, e) == None <==> Sound(entries + [e])
  {
    var r := entries + [e];
    if Sound(r) {
      assert r[|entries|].sequence == |entries| + 1;
      forall i | 0 <= i < |entries| ensures entries[i].id != e.id {
        assert r[i].id != r[|entries|].id;
      }
      if entries != [] {
        assert r[|entries| - 1].postedAt <= r[|entries|].postedAt;
      }
    }
  }

  function Signed(e: Entry): int {
    if e.kind == Credit then e.cents else -(e.cents as int)
  }

  /** The balance of all entries, replayed from the first to the last. */
  function Balance(entries: seq<Entry>): int {
    if entries == [] then 0 else Balance(entries[..|entries| - 1]) + Signed(entries[|entries| - 1])
  }

  /** The balance of one account within the shared history. */
  function AccountBalance(entries: seq<Entry>, account: string): int {
    if entries == [] then 0
    else
      var e := entries[|entries| - 1];
      AccountBalance(entries[..|entries| - 1], account) + (if e.account == account then Signed(e) else 0)
  }

  lemma BalanceAppend(entries: seq<Entry>, e: Entry)
    ensures Balance(entries + [e]) == Balance(entries) + Signed(e)
    ensures forall a :: AccountBalance(entries + [e], a) == AccountBalance(entries, a) + if e.account == a then Signed(e) else 0
  {
    assert (entries + [e])[..|entries|] == entries;
  }

  /** The first objection met when appending one by one. */
  function BatchObjection(entries: seq<Entry>, batch: seq<Entry>): Option<Error>
    decreases |batch|
  {
    if batch == [] then None
    else if Objection(entries, batch[0]).Some? then Objection(entries, batch[0])
    else BatchObjection(entries + [batch[0]], batch[1..])
  }

  /** A batch is acceptable exactly when the history it would leave is one a ledger can have. */
  lemma {:induction false} BatchAcceptable(entries: seq<Entry>, batch: seq<Entry>)
    requires Sound(entries)
    ensures BatchObjection(entries, batch) == None <==> Sound(entries + batch)
    decreases |batch|
  {
    if batch == [] {
      assert entries + batch == entries;
    } else {
      var next := entries + [batch[0]];
      assert entries + batch == next + batch[1..];
      AppendSound(entries, batch[0]);
      if Objection(entries, batch[0]).Some? {
        UnsoundPrefix(next, batch[1..]);
      } else {
        BatchAcceptable(next, batch[1..]);
      }
    }
  }

  lemma UnsoundPrefix(x: seq<Entry>, y: seq<Entry>)
    requires !Sound(x)
    ensures !Sound(x + y)
  {
    assert forall i :: 0 <= i < |x| ==> (x + y)[i] == x[i];
  }

  // ----- The object -----

  class Ledger {
    var entries: seq<Entry>
    var ids: set<EntryId>

    ghost predicate Valid()
      reads this
    {
      Sound(entries) && ids == Ids(entries)
    }

    constructor ()
      ensures Valid() && entries == []
    {
      entries, ids := [], {};
    }

    /** Append the next fact, or refuse and change nothing. */
    method Append(e: Entry) returns (error: Option<Error>)
      requires Valid()
      modifies this
      ensures Valid()
      ensures error == Objection(old(entries), e)
      ensures entries == if error.None? then old(entries) + [e] else old(entries)
    {
      if e.sequence != |entries| + 1 {
        return Some(WrongSequence);
      }
      if e.id in ids {
        return Some(DuplicateId);
      }
      if entries != [] && e.postedAt < entries[|entries| - 1].postedAt {
        return Some(MovesBackward);
      }
      AppendSound(entries, e);
      IdsAppend(entries, e);
      entries := entries + [e];
      ids := ids + {e.id};
      error := None;
    }

    /** The first pass over a batch: nothing is changed yet. */
    method Check(batch: seq<Entry>) returns (error: Option<Error>, known: set<EntryId>)
      requires Valid()
      ensures error == BatchObjection(entries, batch)
      ensures error.None? ==> Sound(entries + batch) && known == Ids(entries + batch)
    {
      var i, last := 0, if entries == [] then 0 else entries[|entries| - 1].postedAt;
      known := ids;
      assert entries + batch[..0] == entries && batch[0..] == batch;
      while i < |batch|
        invariant 0 <= i <= |batch|
        invariant Sound(entries + batch[..i]) && known == Ids(entries + batch[..i])
        invariant BatchObjection(entries, batch) == BatchObjection(entries + batch[..i], batch[i..])
        invariant last == LastPosted(entries + batch[..i])
      {
        var e := batch[i];
        BatchStep(entries, batch, i);
        if e.sequence != |entries| + i + 1 {
          return Some(WrongSequence), known;
        }
        if e.id in known {
          return Some(DuplicateId), known;
        }
        if e.postedAt < last {
          return Some(MovesBackward), known;
        }
        known := known + {e.id};
        last := e.postedAt;
        i := i + 1;
      }
      assert batch[..i] == batch;
      error := None;
    }

    /** Append a whole batch exactly when one-by-one appending would succeed throughout; otherwise change nothing. */
    method AppendBatch(batch: seq<Entry>) returns (error: Option<Error>)
      requires Valid()
      modifies this
      ensures Valid()
      ensures error == if batch == [] then Some(EmptyBatch) else BatchObjection(old(entries), batch)
      ensures entries == if error.None? then old(entries) + batch else old(entries)
    {
      if batch == [] {
        return Some(EmptyBatch);
      }
      var known;
      error, known := Check(batch);
      if error.None? {
        entries := entries + batch;
        ids := known;
      }
    }
  }

  function LastPosted(entries: seq<Entry>): nat {
    if entries == [] then 0 else entries[|entries| - 1].postedAt
  }

  lemma BatchStep(entries: seq<Entry>, batch: seq<Entry>, i: nat)
    requires i < |batch| && Sound(entries + batch[..i])
    ensures entries + batch[..i + 1] == entries + batch[..i] + [batch[i]]
    ensures batch[i..][0] == batch[i] && batch[i..][1..] == batch[i + 1..]
    ensures Objection(entries + batch[..i], batch[i]) == None <==> Sound(entries + batch[..i + 1])
    ensures Ids(entries + batch[..i + 1]) == Ids(entries + batch[..i]) + {batch[i].id}
    ensures LastPosted(entries + batch[..i + 1]) == batch[i].postedAt
  {
    assert entries + batch[..i + 1] == entries + batch[..i] + [batch[i]];
    AppendSound(entries + batch[..i], batch[i]);
    IdsAppend(entries + batch[..i], batch[i]);
  }

  /** Project the balance, insisting on contiguous sequence numbers. */
  method Replay(entries: seq<Entry>) returns (balance: Option<int>)
    ensures balance.Some? <==> forall i :: 0 <= i < |entries| ==> entries[i].sequence == i + 1
    ensures balance.Some? ==> balance.value == Balance(entries)
  {
    var total := 0;
    for i := 0 to |entries|
      invariant forall j :: 0 <= j < i ==> entries[j].sequence == j + 1
      invariant total == Balance(entries[..i])
    {
      var e := entries[i];
      if e.sequence != i + 1 {
        return None;
      }
      total := total + (if e.kind == Credit then e.cents else -(e.cents as int));
      assert entries[..i + 1] == entries[..i] + [e];
      BalanceAppend(entries[..i], e);
    }
    assert entries[..|entries|] == entries;
    balance := Some(total);
  }
}
