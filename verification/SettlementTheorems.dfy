/** What reconciliation accounts for, and when it reports no exception. */
module SettlementTheorems {
  import opened Sorting
  import opened Settlement

  ghost predicate DistinctPayments(rows: seq<Internal>) {
    forall i, j :: 0 <= i < j < |rows| ==> rows[i].payment != rows[j].payment
  }

  // ----- The cents of one payment -----

  ghost function InternalCents(i: Item): int { i.internalCents }

  ghost function ExternalCents(i: Item): int { i.externalCents }

  ghost function LastCents(rows: seq<Internal>, payment: string): int {
    if LastRow(rows, payment).Some? then LastRow(rows, payment).value.cents else 0
  }

  ghost function GroupCents(rows: seq<External>, payment: string): int {
    SumBy(RowsOf(rows, payment), CentsOf)
  }

  lemma {:induction false} UnexpectedCents(rows: seq<External>)
    ensures SumBy(MapSeq(rows, Unexpected), InternalCents) == 0
    ensures SumBy(MapSeq(rows, Unexpected), ExternalCents) == SumBy(rows, CentsOf)
  {
    if rows != [] {
      UnexpectedCents(rows[1..]);
      assert MapSeq(rows, Unexpected)[1..] == MapSeq(rows[1..], Unexpected);
    }
  }

  lemma SumOne(x: Item, f: Item -> int)
    ensures SumBy([x], f) == f(x)
  {
    assert [x][1..] == [];
  }

  lemma SumOneRow(x: External, f: External -> int)
    ensures SumBy([x], f) == f(x)
  {
    assert [x][1..] == [];
  }

  /** The items of a payment carry exactly the cents of its rows. */
  lemma ItemsCarryCents(internal: seq<Internal>, external: seq<External>, payment: string)
    ensures SumBy(ItemsOf(internal, external, payment), InternalCents) == LastCents(internal, payment)
    ensures SumBy(ItemsOf(internal, external, payment), ExternalCents) == GroupCents(external, payment)
  {
    var expected, actual := LastRow(internal, payment), SortBy(RowsOf(external, payment), ByReference);
    SortPermutes(RowsOf(external, payment), ByReference);
    SumOfSame(actual, RowsOf(external, payment), CentsOf);
    if expected.None? {
      UnexpectedCents(actual);
    } else {
      var item := Classify(expected, actual)[0];
      SumOne(item, InternalCents);
      SumOne(item, ExternalCents);
      if |actual| == 1 {
        SumOneRow(actual[0], CentsOf);
        assert actual == [actual[0]];
      }
    }
  }

  // ----- Summing over the payments -----

  ghost function LastCentsOver(rows: seq<Internal>, payments: seq<string>): int {
    if payments == [] then 0
    else LastCentsOver(rows, payments[..|payments| - 1]) + LastCents(rows, payments[|payments| - 1])
  }

  ghost function GroupCentsOver(rows: seq<External>, payments: seq<string>): int {
    if payments == [] then 0
    else GroupCentsOver(rows, payments[..|payments| - 1]) + GroupCents(rows, payments[|payments| - 1])
  }

  lemma {:induction false} AllItemsCarryCents(internal: seq<Internal>, external: seq<External>, payments: seq<string>)
    ensures SumBy(ItemsOfAll(internal, external, payments), InternalCents) == LastCentsOver(internal, payments)
    ensures SumBy(ItemsOfAll(internal, external, payments), ExternalCents) == GroupCentsOver(external, payments)
    decreases |payments|
  {
    if payments != [] {
      var init, last := payments[..|payments| - 1], payments[|payments| - 1];
      AllItemsCarryCents(internal, external, init);
      ItemsCarryCents(internal, external, last);
      SumSplit(ItemsOfAll(internal, external, init), ItemsOf(internal, external, last), InternalCents);
      SumSplit(ItemsOfAll(internal, external, init), ItemsOf(internal, external, last), ExternalCents);
    }
  }

  ghost predicate DistinctStrings(payments: seq<string>) {
    forall i, j :: 0 <= i < j < |payments| ==> payments[i] != payments[j]
  }

  lemma GroupCentsAppend(rows: seq<External>, row: External, payment: string)
    ensures GroupCents(rows + [row], payment) == GroupCents(rows, payment) + (if row.payment == payment then row.cents else 0)
  {
    assert (rows + [row])[..|rows|] == rows;
    var found := if row.payment == payment then [row] else [];
    assert RowsOf(rows + [row], payment) == RowsOf(rows, payment) + found;
    SumSplit(RowsOf(rows, payment), found, CentsOf);
    SumOneRow(row, CentsOf);
  }

  /** A further row adds its cents once, under its own payment. */
  lemma {:induction false} GroupCentsOverAppend(rows: seq<External>, row: External, payments: seq<string>)
    requires DistinctStrings(payments)
    ensures GroupCentsOver(rows + [row], payments) ==
            GroupCentsOver(rows, payments) + (if row.payment in payments then row.cents else 0)
    decreases |payments|
  {
    if payments != [] {
      var init, last := payments[..|payments| - 1], payments[|payments| - 1];
      GroupCentsOverAppend(rows, row, init);
      GroupCentsAppend(rows, row, last);
      assert payments == init + [last];
    }
  }

  lemma {:induction false} GroupsLoseNothing(rows: seq<External>, payments: seq<string>)
    requires DistinctStrings(payments) && forall i :: 0 <= i < |rows| ==> rows[i].payment in payments
    ensures GroupCentsOver(rows, payments) == SumBy(rows, CentsOf)
    decreases |rows|
  {
    if rows == [] {
      NoGroups(payments);
    } else {
      var init, row := rows[..|rows| - 1], rows[|rows| - 1];
      GroupsLoseNothing(init, payments);
      GroupCentsOverAppend(init, row, payments);
      SumSplit(init, [row], CentsOf);
      SumOneRow(row, CentsOf);
      assert rows == init + [row];
    }
  }

  lemma {:induction false} NoGroups(payments: seq<string>)
    ensures GroupCentsOver([], payments) == 0
    decreases |payments|
  {
    if payments != [] {
      NoGroups(payments[..|payments| - 1]);
    }
  }

  ghost function RowCents(row: Internal): int { row.cents }

  lemma LastCentsAppend(rows: seq<Internal>, row: Internal, payment: string)
    ensures LastCents(rows + [row], payment) == if row.payment == payment then row.cents else LastCents(rows, payment)
  {
    assert (rows + [row])[..|rows|] == rows;
  }

  lemma {:induction false} LastCentsOverAppend(rows: seq<Internal>, row: Internal, payments: seq<string>)
    requires DistinctStrings(payments) && LastRow(rows, row.payment).None?
    ensures LastCentsOver(rows + [row], payments) ==
            LastCentsOver(rows, payments) + (if row.payment in payments then row.cents else 0)
    decreases |payments|
  {
    if payments != [] {
      var init, last := payments[..|payments| - 1], payments[|payments| - 1];
      LastCentsOverAppend(rows, row, init);
      LastCentsAppend(rows, row, last);
      assert payments == init + [last];
    }
  }

  lemma {:induction false} NoRows(payments: seq<string>)
    ensures LastCentsOver([], payments) == 0
    decreases |payments|
  {
    if payments != [] {
      NoRows(payments[..|payments| - 1]);
    }
  }

  lemma {:induction false} RowsLoseNothing(rows: seq<Internal>, payments: seq<string>)
    requires DistinctStrings(payments) && DistinctPayments(rows)
    requires forall i :: 0 <= i < |rows| ==> rows[i].payment in payments
    ensures LastCentsOver(rows, payments) == SumBy(rows, RowCents)
    decreases |rows|
  {
    if rows == [] {
      NoRows(payments);
    } else {
      var init, row := rows[..|rows| - 1], rows[|rows| - 1];
      RowsLoseNothing(init, payments);
      LastRowPresent(init, row.payment);
      LastCentsOverAppend(init, row, payments);
      SumSplit(init, [row], RowCents);
      assert [row][1..] == [];
      assert rows == init + [row];
    }
  }

  // ----- The totals of the two directions -----

  lemma {:induction false} ExternalTotalsAdd(rows: seq<External>)
    ensures ExternalTotal(rows, Outbound) + ExternalTotal(rows, Return) == SumBy(rows, CentsOf)
  {
    if rows != [] {
      ExternalTotalsAdd(rows[1..]);
      ExternalTotalHead(rows, Outbound);
      ExternalTotalHead(rows, Return);
    }
  }

  lemma ExternalTotalHead(rows: seq<External>, d: Direction)
    requires rows != []
    ensures ExternalTotal(rows, d) == (if rows[0].direction == d then rows[0].cents else 0) + ExternalTotal(rows[1..], d)
  {
  }

  lemma {:induction false} InternalTotalsAdd(rows: seq<Internal>)
    ensures InternalTotal(rows, Outbound) + InternalTotal(rows, Return) == SumBy(rows, RowCents)
  {
    if rows != [] {
      InternalTotalsAdd(rows[1..]);
      InternalTotalHead(rows, Outbound);
      InternalTotalHead(rows, Return);
    }
  }

  lemma InternalTotalHead(rows: seq<Internal>, d: Direction)
    requires rows != []
    ensures InternalTotal(rows, d) == (if rows[0].direction == d then rows[0].cents else 0) + InternalTotal(rows[1..], d)
  {
  }

  ghost function DifferenceOf(i: Item): int { i.Difference() }

  lemma {:induction false} DifferencesAdd(items: seq<Item>)
    ensures SumBy(items, DifferenceOf) == SumBy(items, ExternalCents) - SumBy(items, InternalCents)
  {
    if items != [] {
      DifferencesAdd(items[1..]);
    }
  }

  // ----- Every cent is accounted for -----

  lemma ArrangedCovers(internal: seq<Internal>, external: seq<External>, payments: seq<string>)
    requires Arranged(payments, Payments(internal, external))
    ensures DistinctStrings(payments)
    ensures forall i :: 0 <= i < |internal| ==> internal[i].payment in payments
    ensures forall i :: 0 <= i < |external| ==> external[i].payment in payments
  {
    assert forall i :: 0 <= i < |internal| ==> internal[i].payment in Payments(internal, external);
    assert forall i :: 0 <= i < |external| ==> external[i].payment in Payments(internal, external);
  }

  /**
   With distinct internal payments, every internal and external cent is in
   exactly one item: the items' amounts add up to the two sides, and their
   differences to the outbound and return differences together.
   */
  lemma EveryCentAccounted(internal: seq<Internal>, external: seq<External>, at: int, r: Report)
    requires DistinctPayments(internal) && Reconciled(internal, external, at, r)
    ensures SumBy(r.items, InternalCents) == SumBy(internal, RowCents)
    ensures SumBy(r.items, ExternalCents) == SumBy(external, CentsOf)
    ensures SumBy(r.items, DifferenceOf) == r.outbound.Difference() + r.returned.Difference()
  {
    var payments :| Arranged(payments, Payments(internal, external))
                    && r == ReportOf(internal, external, at, SortBy(ItemsOfAll(internal, external, payments), ByKey));
    var items := ItemsOfAll(internal, external, payments);
    ArrangedCovers(internal, external, payments);
    SortPermutes(items, ByKey);
    SumOfSame(r.items, items, InternalCents);
    SumOfSame(r.items, items, ExternalCents);
    AllItemsCarryCents(internal, external, payments);
    RowsLoseNothing(internal, payments);
    GroupsLoseNothing(external, payments);
    DifferencesAdd(r.items);
    InternalTotalsAdd(internal);
    ExternalTotalsAdd(external);
  }
}
