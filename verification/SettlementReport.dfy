/** What the figures of a report are, in terms of the rows and the items. */
module SettlementReport {
  import opened Sorting
  import opened Settlement

  // ----- Counting by hand -----

  /** The cents of the outbound rows of our own side, and so on for the other three columns. */
  ghost function OurOutbound(rows: seq<Internal>): int {
    if rows == [] then 0
    else OurOutbound(rows[..|rows| - 1]) + (if rows[|rows| - 1].direction.Outbound? then rows[|rows| - 1].cents else 0)
  }

  ghost function OurReturned(rows: seq<Internal>): int {
    if rows == [] then 0
    else OurReturned(rows[..|rows| - 1]) + (if rows[|rows| - 1].direction.Return? then rows[|rows| - 1].cents else 0)
  }

  ghost function TheirOutbound(rows: seq<External>): int {
    if rows == [] then 0
    else TheirOutbound(rows[..|rows| - 1]) + (if rows[|rows| - 1].direction.Outbound? then rows[|rows| - 1].cents else 0)
  }

  ghost function TheirReturned(rows: seq<External>): int {
    if rows == [] then 0
    else TheirReturned(rows[..|rows| - 1]) + (if rows[|rows| - 1].direction.Return? then rows[|rows| - 1].cents else 0)
  }

  /** The places at which an item of the status stands. */
  ghost function Places(items: seq<Item>, s: Status): set<nat> {
    set i: nat | i < |items| && items[i].status == s
  }

  lemma {:induction false} InternalTotalsAre(rows: seq<Internal>)
    ensures InternalTotal(rows, Outbound) == OurOutbound(rows) && InternalTotal(rows, Return) == OurReturned(rows)
    decreases |rows|
  {
    if rows != [] {
      var init, last := rows[..|rows| - 1], [rows[|rows| - 1]];
      InternalTotalsAre(init);
      assert rows == init + last && last[1..] == [];
      SumSplit(init, last, (row: Internal) => if row.direction == Outbound then row.cents else 0);
      SumSplit(init, last, (row: Internal) => if row.direction == Return then row.cents else 0);
    }
  }

  lemma {:induction false} ExternalTotalsAre(rows: seq<External>)
    ensures ExternalTotal(rows, Outbound) == TheirOutbound(rows) && ExternalTotal(rows, Return) == TheirReturned(rows)
    decreases |rows|
  {
    if rows != [] {
      var init, last := rows[..|rows| - 1], [rows[|rows| - 1]];
      ExternalTotalsAre(init);
      assert rows == init + last && last[1..] == [];
      SumSplit(init, last, (row: External) => if row.direction == Outbound then row.cents else 0);
      SumSplit(init, last, (row: External) => if row.direction == Return then row.cents else 0);
    }
  }

  lemma {:induction false} StatusCountIs(items: seq<Item>, s: Status)
    ensures StatusCount(items, s) == |Places(items, s)|
    decreases |items|
  {
    if items != [] {
      var init, last := items[..|items| - 1], [items[|items| - 1]];
      StatusCountIs(init, s);
      assert items == init + last && last[1..] == [];
      SumSplit(init, last, (item: Item) => if item.status == s then 1 else 0);
      PlacesAppend(init, items[|init|], s);
    }
  }

  lemma PlacesAppend(items: seq<Item>, item: Item, s: Status)
    ensures |Places(items + [item], s)| == |Places(items, s)| + (if item.status == s then 1 else 0)
  {
    if item.status == s {
      PlacesGrow(items, item, s);
    } else {
      PlacesStay(items, item, s);
    }
  }

  lemma PlacesGrow(items: seq<Item>, item: Item, s: Status)
    requires item.status == s
    ensures Places(items + [item], s) == Places(items, s) + {|items|}
  {
    var more := items + [item];
    assert forall i :: 0 <= i < |items| ==> more[i] == items[i];
  }

  lemma PlacesStay(items: seq<Item>, item: Item, s: Status)
    requires item.status != s
    ensures Places(items + [item], s) == Places(items, s)
  {
    var more := items + [item];
    assert forall i :: 0 <= i < |items| ==> more[i] == items[i];
  }

  /** The figures of a report: counted by hand, each in its place. */
  ghost predicate Figures(internal: seq<Internal>, external: seq<External>, at: int, r: Report) {
    && r.outbound.internalCents == OurOutbound(internal) && r.outbound.externalCents == TheirOutbound(external)
    && r.returned.internalCents == OurReturned(internal) && r.returned.externalCents == TheirReturned(external)
    && r.outbound.Difference() == TheirOutbound(external) - OurOutbound(internal)
    && r.returned.Difference() == TheirReturned(external) - OurReturned(internal)
    && r.completedAt == at
  }

  ghost predicate StatusLines(r: Report) {
    && |r.statusTotals| == 6
    && r.statusTotals[0] == (Matched, |Places(r.items, Matched)|)
    && r.statusTotals[1] == (MissingExternally, |Places(r.items, MissingExternally)|)
    && r.statusTotals[2] == (UnexpectedExternally, |Places(r.items, UnexpectedExternally)|)
    && r.statusTotals[3] == (AmountMismatch, |Places(r.items, AmountMismatch)|)
    && r.statusTotals[4] == (DirectionMismatch, |Places(r.items, DirectionMismatch)|)
    && r.statusTotals[5] == (DuplicateExternally, |Places(r.items, DuplicateExternally)|)
  }

  /**
   In every report the outbound and the returned totals are those of the rows
   of each side, the status totals count the items in the declared order of the
   statuses, and it bears the time of reconciling.
   */
  lemma ReportAddsUp(internal: seq<Internal>, external: seq<External>, at: int, r: Report)
    requires Reconciled(internal, external, at, r)
    ensures Figures(internal, external, at, r) && StatusLines(r)
  {
    InternalTotalsAre(internal);
    ExternalTotalsAre(external);
    forall s: Status ensures StatusCount(r.items, s) == |Places(r.items, s)| {
      StatusCountIs(r.items, s);
    }
  }

  /** The places of the items that are not matched. */
  ghost function Unmatched(items: seq<Item>): set<nat> {
    set i: nat | i < |items| && items[i].status != Matched
  }

  lemma UnmatchedAppend(items: seq<Item>, item: Item)
    ensures |Unmatched(items + [item])| == |Unmatched(items)| + (if item.status == Matched then 0 else 1)
  {
    assert forall i :: 0 <= i < |items| ==> (items + [item])[i] == items[i];
    assert (items + [item])[|items|] == item;
    assert Unmatched(items + [item]) == Unmatched(items) + (if item.status == Matched then {} else {|items|});
  }

  lemma {:induction false} ExceptionsCount(items: seq<Item>)
    ensures Exceptions(items) == |Unmatched(items)|
    decreases |items|
  {
    if items != [] {
      var init, last := items[..|items| - 1], items[|items| - 1];
      ExceptionsCount(init);
      assert items == init + [last];
      UnmatchedAppend(init, last);
      StatusCountIs(items, Matched);
      StatusCountIs(init, Matched);
      PlacesAppend(init, last, Matched);
    }
  }

  /** The exceptions of a report are the items that are not matched, and an item's difference is theirs less ours. */
  lemma ExceptionsAre(items: seq<Item>)
    ensures Exceptions(items) == |Unmatched(items)|
    ensures forall item :: item in items ==> item.Difference() == item.externalCents - item.internalCents
  {
    ExceptionsCount(items);
  }
}
