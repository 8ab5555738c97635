/** The report does not depend on the order of its inputs, and its items are in order. */
module SettlementOrder {
  import opened Wrappers
  import opened Sorting
  import opened Settlement
  import opened SettlementTheorems

  // ----- The payments -----

  lemma {:induction false} DistinctCount(xs: seq<string>, x: string)
    requires DistinctStrings(xs)
    ensures multiset(xs)[x] == if x in xs then 1 else 0
    decreases |xs|
  {
    if xs != [] {
      var init := xs[..|xs| - 1];
      DistinctCount(init, x);
      assert xs == init + [xs[|xs| - 1]];
    }
  }

  lemma ArrangedIsUnique(xs: seq<string>, ys: seq<string>, all: set<string>)
    requires Arranged(xs, all) && Arranged(ys, all)
    ensures xs == ys
  {
    forall x: string ensures multiset(xs)[x] == multiset(ys)[x] {
      DistinctCount(xs, x);
      DistinctCount(ys, x);
    }
    OrderedIsCanonical(xs, ys);
  }

  lemma SameMembers<T>(xs: seq<T>, ys: seq<T>)
    requires multiset(xs) == multiset(ys)
    ensures forall x :: x in xs <==> x in ys
  {
    forall x ensures x in xs <==> x in ys {
      assert x in xs <==> x in multiset(xs);
    }
  }

  lemma SamePayments(i1: seq<Internal>, e1: seq<External>, i2: seq<Internal>, e2: seq<External>)
    requires multiset(i1) == multiset(i2) && multiset(e1) == multiset(e2)
    ensures Payments(i1, e1) == Payments(i2, e2)
  {
    SameMembers(i1, i2);
    SameMembers(e1, e2);
    PaymentsWithin(i1, e1, i2, e2);
    PaymentsWithin(i2, e2, i1, e1);
  }

  lemma PaymentsWithin(i1: seq<Internal>, e1: seq<External>, i2: seq<Internal>, e2: seq<External>)
    requires (forall x :: x in i1 ==> x in i2) && (forall x :: x in e1 ==> x in e2)
    ensures Payments(i1, e1) <= Payments(i2, e2)
  {
    forall p | p in Payments(i1, e1) ensures p in Payments(i2, e2) {
      if i :| 0 <= i < |i1| && i1[i].payment == p {
        assert i1[i] in i2;
      } else {
        var j :| 0 <= j < |e1| && e1[j].payment == p;
        assert e1[j] in e2;
      }
    }
  }

  // ----- The rows of a payment -----

  lemma {:induction false} LastRowIn(rows: seq<Internal>, payment: string)
    ensures LastRow(rows, payment).Some? ==>
              LastRow(rows, payment).value in rows && LastRow(rows, payment).value.payment == payment
    decreases |rows|
  {
    if rows != [] {
      LastRowIn(rows[..|rows| - 1], payment);
    }
  }

  lemma {:induction false} OnlyRow(rows: seq<Internal>, row: Internal)
    requires DistinctPayments(rows) && row in rows
    ensures LastRow(rows, row.payment) == Some(row)
    decreases |rows|
  {
    var init, last := rows[..|rows| - 1], rows[|rows| - 1];
    var i :| 0 <= i < |rows| && rows[i] == row;
    if i < |init| {
      assert init[i] == row;
      OnlyRow(init, row);
    }
  }

  lemma SameLastRow(xs: seq<Internal>, ys: seq<Internal>, payment: string)
    requires DistinctPayments(xs) && multiset(xs) == multiset(ys)
    ensures LastRow(xs, payment) == LastRow(ys, payment)
  {
    SameMembers(xs, ys);
    LastRowIn(ys, payment);
    if LastRow(ys, payment).Some? {
      OnlyRow(xs, LastRow(ys, payment).value);
    } else {
      LastRowPresent(ys, payment);
      LastRowPresent(xs, payment);
      assert forall row :: row in xs ==> row in ys && row.payment != payment;
    }
  }

  lemma {:induction false} GroupCount(rows: seq<External>, payment: string, row: External)
    ensures multiset(RowsOf(rows, payment))[row] == if row.payment == payment then multiset(rows)[row] else 0
    decreases |rows|
  {
    if rows != [] {
      var init, last := rows[..|rows| - 1], rows[|rows| - 1];
      GroupCount(init, payment, row);
      assert rows == init + [last];
      if last.payment != payment {
        assert RowsOf(rows, payment) == RowsOf(init, payment);
      }
    }
  }

  lemma SameGroup(xs: seq<External>, ys: seq<External>, payment: string)
    requires multiset(xs) == multiset(ys)
    ensures multiset(RowsOf(xs, payment)) == multiset(RowsOf(ys, payment))
  {
    forall row: External ensures multiset(RowsOf(xs, payment))[row] == multiset(RowsOf(ys, payment))[row] {
      GroupCount(xs, payment, row);
      GroupCount(ys, payment, row);
    }
  }

  // ----- The items of a payment -----

  ghost function ReferenceOf(row: External): string { row.reference }

  ghost function JoinText(references: seq<string>): string {
    if references == [] then ""
    else if |references| == 1 then references[0]
    else JoinText(references[..|references| - 1]) + ", " + references[|references| - 1]
  }

  lemma {:induction false} JoinIsText(rows: seq<External>)
    ensures Join(rows) == JoinText(MapSeq(rows, ReferenceOf))
    decreases |rows|
  {
    if |rows| > 1 {
      JoinIsText(rows[..|rows| - 1]);
      assert MapSeq(rows, ReferenceOf)[..|rows| - 1] == MapSeq(rows[..|rows| - 1], ReferenceOf);
    }
  }

  lemma ReferencesAreOrdered()
    ensures TotalPreorder(ByReference)
  {
    StringsAreOrdered();
  }

  lemma SameReferences(xs: seq<External>, ys: seq<External>)
    requires Ordered(xs, ByReference) && Ordered(ys, ByReference) && multiset(xs) == multiset(ys)
    ensures MapSeq(xs, ReferenceOf) == MapSeq(ys, ReferenceOf)
  {
    MapOfSame(xs, ys, ReferenceOf);
    OrderedIsCanonical(MapSeq(xs, ReferenceOf), MapSeq(ys, ReferenceOf));
  }

  lemma SameClassification(expected: Option<Internal>, xs: seq<External>, ys: seq<External>)
    requires Ordered(xs, ByReference) && Ordered(ys, ByReference) && multiset(xs) == multiset(ys)
    ensures multiset(Classify(expected, xs)) == multiset(Classify(expected, ys))
  {
    assert |multiset(xs)| == |xs| && |multiset(ys)| == |ys|;
    if expected.None? {
      MapOfSame(xs, ys, Unexpected);
    } else if |xs| == 1 {
      assert xs[0] in multiset(ys);
    } else if |xs| > 1 {
      SumOfSame(xs, ys, CentsOf);
      SameReferences(xs, ys);
      JoinIsText(xs);
      JoinIsText(ys);
    }
  }

  lemma SameItems(i1: seq<Internal>, e1: seq<External>, i2: seq<Internal>, e2: seq<External>, payment: string)
    requires DistinctPayments(i1) && multiset(i1) == multiset(i2) && multiset(e1) == multiset(e2)
    ensures multiset(ItemsOf(i1, e1, payment)) == multiset(ItemsOf(i2, e2, payment))
  {
    var xs, ys := RowsOf(e1, payment), RowsOf(e2, payment);
    SameLastRow(i1, i2, payment);
    SameGroup(e1, e2, payment);
    SortPermutes(xs, ByReference);
    SortPermutes(ys, ByReference);
    ReferencesAreOrdered();
    SortOrders(xs, ByReference);
    SortOrders(ys, ByReference);
    SameClassification(LastRow(i1, payment), SortBy(xs, ByReference), SortBy(ys, ByReference));
  }

  lemma {:induction false} SameItemsOfAll(i1: seq<Internal>, e1: seq<External>, i2: seq<Internal>, e2: seq<External>, payments: seq<string>)
    requires DistinctPayments(i1) && multiset(i1) == multiset(i2) && multiset(e1) == multiset(e2)
    ensures multiset(ItemsOfAll(i1, e1, payments)) == multiset(ItemsOfAll(i2, e2, payments))
    decreases |payments|
  {
    if payments != [] {
      SameItemsOfAll(i1, e1, i2, e2, payments[..|payments| - 1]);
      SameItems(i1, e1, i2, e2, payments[|payments| - 1]);
    }
  }

  // ----- The report -----

  ghost predicate SameReport(r1: Report, r2: Report) {
    && multiset(r1.items) == multiset(r2.items)
    && r1.statusTotals == r2.statusTotals
    && r1.outbound == r2.outbound
    && r1.returned == r2.returned
  }

  lemma SameTotals(i1: seq<Internal>, e1: seq<External>, i2: seq<Internal>, e2: seq<External>, d: Direction)
    requires multiset(i1) == multiset(i2) && multiset(e1) == multiset(e2)
    ensures TotalsOf(i1, e1, d) == TotalsOf(i2, e2, d)
  {
    SumOfSame(i1, i2, (row: Internal) => if row.direction == d then row.cents else 0);
    SumOfSame(e1, e2, (row: External) => if row.direction == d then row.cents else 0);
  }

  lemma SameStatusCount(xs: seq<Item>, ys: seq<Item>, s: Status)
    requires multiset(xs) == multiset(ys)
    ensures StatusCount(xs, s) == StatusCount(ys, s)
  {
    SumOfSame(xs, ys, (item: Item) => if item.status == s then 1 else 0);
  }

  lemma SameStatusTotals(xs: seq<Item>, ys: seq<Item>)
    requires multiset(xs) == multiset(ys)
    ensures StatusTotals(xs) == StatusTotals(ys)
  {
    SameStatusCount(xs, ys, Matched);
    SameStatusCount(xs, ys, MissingExternally);
    SameStatusCount(xs, ys, UnexpectedExternally);
    SameStatusCount(xs, ys, AmountMismatch);
    SameStatusCount(xs, ys, DirectionMismatch);
    SameStatusCount(xs, ys, DuplicateExternally);
  }

  lemma Unfolded(internal: seq<Internal>, external: seq<External>, at: int, r: Report) returns (payments: seq<string>)
    requires Reconciled(internal, external, at, r)
    ensures Arranged(payments, Payments(internal, external))
    ensures r == ReportOf(internal, external, at, r.items)
    ensures multiset(r.items) == multiset(ItemsOfAll(internal, external, payments))
    ensures r.items == SortBy(ItemsOfAll(internal, external, payments), ByKey)
  {
    payments :| Arranged(payments, Payments(internal, external))
                && r == ReportOf(internal, external, at, SortBy(ItemsOfAll(internal, external, payments), ByKey));
    SortPermutes(ItemsOfAll(internal, external, payments), ByKey);
  }

  /** With distinct internal payments, the report is the same whatever order the rows of either side come in. */
  lemma InputOrderDoesNotMatter(i1: seq<Internal>, e1: seq<External>, r1: Report,
                                i2: seq<Internal>, e2: seq<External>, r2: Report, at1: int, at2: int)
    requires DistinctPayments(i1) && multiset(i1) == multiset(i2) && multiset(e1) == multiset(e2)
    requires Reconciled(i1, e1, at1, r1) && Reconciled(i2, e2, at2, r2)
    ensures SameReport(r1, r2)
  {
    var p1 := Unfolded(i1, e1, at1, r1);
    var p2 := Unfolded(i2, e2, at2, r2);
    SamePayments(i1, e1, i2, e2);
    ArrangedIsUnique(p1, p2, Payments(i1, e1));
    SameItemsOfAll(i1, e1, i2, e2, p1);
    SameStatusTotals(r1.items, r2.items);
    SameTotals(i1, e1, i2, e2, Outbound);
    SameTotals(i1, e1, i2, e2, Return);
  }

  // ----- The order of the items -----

  lemma KeysTotal(a: Item, b: Item)
    ensures ByKey(a, b) || ByKey(b, a)
  {
    StringTotal(a.payment, b.payment);
    StringTotal(StatusText(a.status), StatusText(b.status));
    StringTotal(a.reference, b.reference);
  }

  lemma StatusTextsDiffer(a: Status, b: Status)
    ensures StatusText(a) == StatusText(b) <==> a == b
  {
    if StatusText(a) == StatusText(b) {
      assert |StatusText(a)| == |StatusText(b)| && StatusText(a)[0] == StatusText(b)[0];
    }
  }

  lemma KeysTransitive(a: Item, b: Item, c: Item)
    requires ByKey(a, b) && ByKey(b, c)
    ensures ByKey(a, c)
  {
    if a.payment != b.payment || b.payment != c.payment {
      PaymentsTransitive(a, b, c);
    } else if a.status != b.status || b.status != c.status {
      StatusesTransitive(a, b, c);
    } else {
      StringTransitive(a.reference, b.reference, c.reference);
    }
  }

  lemma StringSelf(s: string)
    ensures StringLeq(s, s)
  {
    StringTotal(s, s);
  }

  lemma PaymentsTransitive(a: Item, b: Item, c: Item)
    requires ByKey(a, b) && ByKey(b, c) && (a.payment != b.payment || b.payment != c.payment)
    ensures ByKey(a, c)
  {
    StringSelf(b.payment);
    StringTransitive(a.payment, b.payment, c.payment);
    if a.payment == c.payment {
      StringAntisymmetric(a.payment, b.payment);
    }
  }

  lemma StatusesTransitive(a: Item, b: Item, c: Item)
    requires ByKey(a, b) && ByKey(b, c) && a.payment == b.payment == c.payment
    requires a.status != b.status || b.status != c.status
    ensures ByKey(a, c)
  {
    StringSelf(StatusText(b.status));
    StringTransitive(StatusText(a.status), StatusText(b.status), StatusText(c.status));
    if a.status == c.status {
      StringAntisymmetric(StatusText(a.status), StatusText(b.status));
      StatusTextsDiffer(a.status, b.status);
    }
  }

  lemma KeysAreOrdered()
    ensures TotalPreorder(ByKey)
  {
    forall a, b ensures ByKey(a, b) || ByKey(b, a) {
      KeysTotal(a, b);
    }
    forall a, b, c | ByKey(a, b) && ByKey(b, c) ensures ByKey(a, c) {
      KeysTransitive(a, b, c);
    }
  }

  /** The items come by payment, then by status, then by reference. */
  lemma ItemsAreOrdered(internal: seq<Internal>, external: seq<External>, at: int, r: Report)
    requires Reconciled(internal, external, at, r)
    ensures Ordered(r.items, ByKey)
  {
    var payments := Unfolded(internal, external, at, r);
    KeysAreOrdered();
    SortOrders(ItemsOfAll(internal, external, payments), ByKey);
  }

  // ----- What the status of an item says about the rows -----

  /** An internal row has the item's payment, direction and internal amount. */
  ghost predicate Booked(internal: seq<Internal>, item: Item) {
    exists row :: row in internal && row.payment == item.payment && row.direction == item.direction
                  && row.cents == item.internalCents
  }

  ghost predicate Unbooked(internal: seq<Internal>, payment: string) {
    forall i :: 0 <= i < |internal| ==> internal[i].payment != payment
  }

  /** An external row is the item: same reference, direction and amount, against nothing booked. */
  ghost predicate Reports(rows: seq<External>, item: Item) {
    item.internalCents == 0
    && exists row :: row in rows && row.reference == item.reference && row.direction == item.direction
                     && row.cents == item.externalCents
  }

  /** The item names all rows, by their references in order. */
  ghost predicate NamesAll(rows: seq<External>, item: Item) {
    exists actual :: multiset(actual) == multiset(rows) && Ordered(actual, ByReference) && item.reference == Join(actual)
  }

  /** The one row the item is about. */
  ghost predicate NamesOne(rows: seq<External>, item: Item) {
    |rows| == 1 && item.reference == rows[0].reference && item.externalCents == rows[0].cents
  }

  /** The status of an item, in terms of the rows of its payment. */
  ghost predicate Explains(internal: seq<Internal>, external: seq<External>, item: Item) {
    var rows := RowsOf(external, item.payment);
    match item.status
    case UnexpectedExternally =>
      Unbooked(internal, item.payment) && Reports(rows, item)
    case MissingExternally =>
      Booked(internal, item) && rows == [] && item.externalCents == 0 && item.reference == "-"
    case DuplicateExternally =>
      Booked(internal, item) && |rows| > 1 && item.externalCents == SumBy(rows, CentsOf) && NamesAll(rows, item)
    case DirectionMismatch =>
      Booked(internal, item) && NamesOne(rows, item) && rows[0].direction != item.direction
    case AmountMismatch =>
      Booked(internal, item) && NamesOne(rows, item) && rows[0].direction == item.direction
      && item.externalCents != item.internalCents
    case Matched =>
      Booked(internal, item) && NamesOne(rows, item) && rows[0].direction == item.direction
      && item.externalCents == item.internalCents
  }

  ghost predicate AllExplained(internal: seq<Internal>, external: seq<External>, items: seq<Item>) {
    forall item :: item in items ==> Explains(internal, external, item)
  }

  ghost predicate AllNamed(items: seq<Item>, payment: string) {
    forall i :: 0 <= i < |items| ==> items[i].payment == payment
  }

  lemma ClassifiedAreNamed(expected: Option<Internal>, actual: seq<External>, payment: string)
    requires expected.Some? ==> expected.value.payment == payment
    requires forall i :: 0 <= i < |actual| ==> actual[i].payment == payment
    ensures AllNamed(Classify(expected, actual), payment)
  {
  }

  lemma ItemsAreNamed(internal: seq<Internal>, external: seq<External>, payment: string)
    ensures AllNamed(ItemsOf(internal, external, payment), payment)
  {
    var rows := RowsOf(external, payment);
    var actual := SortBy(rows, ByReference);
    SortPermutes(rows, ByReference);
    RowsPresent(external, payment);
    LastRowIn(internal, payment);
    forall i | 0 <= i < |actual| ensures actual[i].payment == payment {
      assert actual[i] in multiset(rows);
    }
    ClassifiedAreNamed(LastRow(internal, payment), actual, payment);
  }

  lemma ItemsAreThere(internal: seq<Internal>, external: seq<External>, payment: string)
    requires payment in Payments(internal, external)
    ensures ItemsOf(internal, external, payment) != []
  {
    SortPermutes(RowsOf(external, payment), ByReference);
    RowsPresent(external, payment);
    LastRowPresent(internal, payment);
  }

  lemma ExplainedPayment(internal: seq<Internal>, external: seq<External>, payment: string)
    ensures AllExplained(internal, external, ItemsOf(internal, external, payment))
  {
    ItemsAreNamed(internal, external, payment);
    if LastRow(internal, payment).None? {
      UnbookedExplained(internal, external, payment);
    } else {
      BookedExplained(internal, external, payment);
    }
  }

  lemma UnbookedExplained(internal: seq<Internal>, external: seq<External>, payment: string)
    requires LastRow(internal, payment).None? && AllNamed(ItemsOf(internal, external, payment), payment)
    ensures AllExplained(internal, external, ItemsOf(internal, external, payment))
  {
    var rows := RowsOf(external, payment);
    var actual := SortBy(rows, ByReference);
    SortPermutes(rows, ByReference);
    SameMembers(actual, rows);
    LastRowPresent(internal, payment);
    forall item | item in ItemsOf(internal, external, payment) ensures Explains(internal, external, item) {
      var i :| 0 <= i < |actual| && item == Unexpected(actual[i]);
      assert actual[i] in rows;
    }
  }

  lemma BookedExplained(internal: seq<Internal>, external: seq<External>, payment: string)
    requires LastRow(internal, payment).Some? && AllNamed(ItemsOf(internal, external, payment), payment)
    ensures AllExplained(internal, external, ItemsOf(internal, external, payment))
  {
    var rows := RowsOf(external, payment);
    var actual := SortBy(rows, ByReference);
    SortPermutes(rows, ByReference);
    SameMembers(actual, rows);
    LastRowIn(internal, payment);
    SumOfSame(actual, rows, CentsOf);
    ReferencesAreOrdered();
    SortOrders(rows, ByReference);
    if |rows| == 1 {
      assert rows[0] in actual;
    }
    ClassifiedExplain(internal, external, LastRow(internal, payment).value, actual, payment);
  }

  /** The rows of a payment against its internal row: one item, whichever it is, says how they compare. */
  lemma ClassifiedExplain(internal: seq<Internal>, external: seq<External>, booked: Internal, actual: seq<External>, payment: string)
    requires booked in internal && booked.payment == payment && |actual| == |RowsOf(external, payment)|
    requires |actual| == 1 ==> RowsOf(external, payment) == actual
    requires SumBy(actual, CentsOf) == SumBy(RowsOf(external, payment), CentsOf)
    requires multiset(actual) == multiset(RowsOf(external, payment)) && Ordered(actual, ByReference)
    ensures AllExplained(internal, external, Classify(Some(booked), actual))
  {
    if actual == [] {
      assert Booked(internal, Missing(booked));
    } else if |actual| > 1 {
      DuplicatedExplain(internal, external, booked, actual);
    } else {
      PairedExplain(internal, external, booked, actual[0]);
    }
  }

  lemma DuplicatedExplain(internal: seq<Internal>, external: seq<External>, booked: Internal, actual: seq<External>)
    requires booked in internal && |actual| == |RowsOf(external, booked.payment)| > 1
    requires SumBy(actual, CentsOf) == SumBy(RowsOf(external, booked.payment), CentsOf)
    requires multiset(actual) == multiset(RowsOf(external, booked.payment)) && Ordered(actual, ByReference)
    ensures Explains(internal, external, Duplicated(booked, actual))
  {
    var item := Duplicated(booked, actual);
    assert Booked(internal, item);
    assert NamesAll(RowsOf(external, booked.payment), item);
  }

  lemma PairedExplain(internal: seq<Internal>, external: seq<External>, booked: Internal, actual: External)
    requires booked in internal && RowsOf(external, booked.payment) == [actual]
    ensures Explains(internal, external, Paired(booked, actual))
  {
    assert Booked(internal, Paired(booked, actual));
    assert NamesOne(RowsOf(external, booked.payment), Paired(booked, actual));
  }

  lemma {:induction false} ExplainedAll(internal: seq<Internal>, external: seq<External>, payments: seq<string>)
    ensures AllExplained(internal, external, ItemsOfAll(internal, external, payments))
    decreases |payments|
  {
    if payments != [] {
      ExplainedAll(internal, external, payments[..|payments| - 1]);
      ExplainedPayment(internal, external, payments[|payments| - 1]);
    }
  }

  lemma {:induction false} ItemOfEach(internal: seq<Internal>, external: seq<External>, payments: seq<string>, p: string)
    requires p in payments && p in Payments(internal, external)
    ensures exists item :: item in ItemsOfAll(internal, external, payments) && item.payment == p
    decreases |payments|
  {
    var init, last := payments[..|payments| - 1], payments[|payments| - 1];
    if p == last {
      ItemsAreNamed(internal, external, p);
      ItemsAreThere(internal, external, p);
      assert ItemsOf(internal, external, p)[0] in ItemsOfAll(internal, external, payments);
    } else {
      assert payments == init + [last];
      ItemOfEach(internal, external, init, p);
    }
  }

  ghost predicate EveryPaymentReported(internal: seq<Internal>, external: seq<External>, items: seq<Item>) {
    forall p :: p in Payments(internal, external) ==> exists item :: item in items && item.payment == p
  }

  /** Every payment of either side is reported, and each item's status says truly how its rows compare. */
  lemma ItemsAreTrue(internal: seq<Internal>, external: seq<External>, at: int, r: Report)
    requires Reconciled(internal, external, at, r)
    ensures AllExplained(internal, external, r.items)
    ensures EveryPaymentReported(internal, external, r.items)
  {
    var payments := Unfolded(internal, external, at, r);
    var items := ItemsOfAll(internal, external, payments);
    SameMembers(r.items, items);
    ExplainedAll(internal, external, payments);
    forall p | p in Payments(internal, external) ensures exists item :: item in r.items && item.payment == p {
      ItemOfEach(internal, external, payments, p);
    }
  }
}
