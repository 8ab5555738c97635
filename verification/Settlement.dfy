/** Settlement expectations and reconciliation, as values. */
module Settlement {
  import opened Wrappers
  import opened Sorting

  datatype Direction = Outbound | Return

  datatype Status =
    | Matched
    | MissingExternally
    | UnexpectedExternally
    | AmountMismatch
    | DirectionMismatch
    | DuplicateExternally

  function DirectionText(d: Direction): string {
    match d
    case Outbound => "Outbound"
    case Return => "Return"
  }

  function StatusText(s: Status): string {
    match s
    case Matched => "Matched"
    case MissingExternally => "Missing externally"
    case UnexpectedExternally => "Unexpected externally"
    case AmountMismatch => "Amount mismatch"
    case DirectionMismatch => "Direction mismatch"
    case DuplicateExternally => "Duplicate externally"
  }

  datatype Internal = Internal(recordId: string, payment: string, cents: int, direction: Direction, expectedAt: int)

  datatype External = External(reference: string, payment: string, cents: int, direction: Direction, reportedAt: int)

  datatype Item = Item(
    payment: string,
    status: Status,
    direction: Direction,
    internalCents: int,
    externalCents: int,
    reference: string)
  {
    /** External minus internal. */
    function Difference(): int {
      externalCents - internalCents
    }
  }

  datatype Totals = Totals(internalCents: int, externalCents: int)
  {
    function Difference(): int {
      externalCents - internalCents
    }
  }

  datatype Report = Report(items: seq<Item>, statusTotals: seq<(Status, int)>, outbound: Totals, returned: Totals, completedAt: int)

  // ----- Grouping -----

  /** The row a dictionary built from `rows` keeps for a payment: the last one. */
  function LastRow(rows: seq<Internal>, payment: string): Option<Internal> {
    if rows == [] then None
    else if rows[|rows| - 1].payment == payment then Some(rows[|rows| - 1])
    else LastRow(rows[..|rows| - 1], payment)
  }

  /** The external rows of a payment, in the order of the report. */
  function RowsOf(rows: seq<External>, payment: string): seq<External> {
    if rows == [] then []
    else
      var init, last := rows[..|rows| - 1], rows[|rows| - 1];
      RowsOf(init, payment) + (if last.payment == payment then [last] else [])
  }

  predicate ByReference(a: External, b: External) {
    StringLeq(a.reference, b.reference)
  }

  // ----- Classification -----

  function Unexpected(row: External): Item {
    Item(row.payment, UnexpectedExternally, row.direction, 0, row.cents, row.reference)
  }

  function Missing(row: Internal): Item {
    Item(row.payment, MissingExternally, row.direction, row.cents, 0, "-")
  }

  function Paired(row: Internal, actual: External): Item {
    var status := if actual.direction != row.direction then DirectionMismatch
                  else if actual.cents != row.cents then AmountMismatch
                  else Matched;
    Item(row.payment, status, row.direction, row.cents, actual.cents, actual.reference)
  }

  function CentsOf(row: External): int {
    row.cents
  }

  /** The references joined with ", ". */
  function Join(rows: seq<External>): string {
    if rows == [] then ""
    else if |rows| == 1 then rows[0].reference
    else Join(rows[..|rows| - 1]) + ", " + rows[|rows| - 1].reference
  }

  function Duplicated(row: Internal, actual: seq<External>): Item {
    Item(row.payment, DuplicateExternally, row.direction, row.cents, SumBy(actual, CentsOf), Join(actual))
  }

  /** The items of one payment: unexpected, missing, duplicate, direction, amount, matched, in this precedence. */
  function Classify(expected: Option<Internal>, actual: seq<External>): seq<Item> {
    if expected.None? then MapSeq(actual, Unexpected)
    else if actual == [] then [Missing(expected.value)]
    else if |actual| > 1 then [Duplicated(expected.value, actual)]
    else [Paired(expected.value, actual[0])]
  }

  function ItemsOf(internal: seq<Internal>, external: seq<External>, payment: string): seq<Item> {
    Classify(LastRow(internal, payment), SortBy(RowsOf(external, payment), ByReference))
  }

  function ItemsOfAll(internal: seq<Internal>, external: seq<External>, payments: seq<string>): seq<Item> {
    if payments == [] then []
    else
      var init := payments[..|payments| - 1];
      ItemsOfAll(internal, external, init) + ItemsOf(internal, external, payments[|payments| - 1])
  }

  // ----- The payments and the final order -----

  function Payments(internal: seq<Internal>, external: seq<External>): set<string> {
    (set i | 0 <= i < |internal| :: internal[i].payment) + (set i | 0 <= i < |external| :: external[i].payment)
  }

  predicate ByKey(a: Item, b: Item) {
    if a.payment != b.payment then StringLeq(a.payment, b.payment)
    else if a.status != b.status then StringLeq(StatusText(a.status), StatusText(b.status))
    else StringLeq(a.reference, b.reference)
  }

  function InternalTotal(rows: seq<Internal>, d: Direction): int {
    SumBy(rows, (row: Internal) => if row.direction == d then row.cents else 0)
  }

  function ExternalTotal(rows: seq<External>, d: Direction): int {
    SumBy(rows, (row: External) => if row.direction == d then row.cents else 0)
  }

  function TotalsOf(internal: seq<Internal>, external: seq<External>, d: Direction): Totals {
    Totals(InternalTotal(internal, d), ExternalTotal(external, d))
  }

  function StatusCount(items: seq<Item>, s: Status): int {
    SumBy(items, (item: Item) => if item.status == s then 1 else 0)
  }

  /** The number of items of each status, in the order in which the statuses are declared. */
  function StatusTotals(items: seq<Item>): seq<(Status, int)> {
    [(Matched, StatusCount(items, Matched)),
     (MissingExternally, StatusCount(items, MissingExternally)),
     (UnexpectedExternally, StatusCount(items, UnexpectedExternally)),
     (AmountMismatch, StatusCount(items, AmountMismatch)),
     (DirectionMismatch, StatusCount(items, DirectionMismatch)),
     (DuplicateExternally, StatusCount(items, DuplicateExternally))]
  }

  function Exceptions(items: seq<Item>): int {
    |items| - StatusCount(items, Matched)
  }

  /** `payments` is the set of payments in increasing order. */
  ghost predicate Arranged(payments: seq<string>, all: set<string>) {
    && Ordered(payments, StringLeq)
    && (forall i, j :: 0 <= i < j < |payments| ==> payments[i] != payments[j])
    && (forall x :: x in payments <==> x in all)
  }

  /** What reconciling must produce. */
  ghost predicate Reconciled(internal: seq<Internal>, external: seq<External>, at: int, r: Report) {
    exists payments ::
      && Arranged(payments, Payments(internal, external))
      && r == ReportOf(internal, external, at, SortBy(ItemsOfAll(internal, external, payments), ByKey))
  }

  function ReportOf(internal: seq<Internal>, external: seq<External>, at: int, items: seq<Item>): Report {
    Report(items, StatusTotals(items), TotalsOf(internal, external, Outbound), TotalsOf(internal, external, Return), at)
  }

  // ----- Reconciling -----

  /** The distinct keys of the two dictionaries, in increasing order. */
  method Arrange(all: set<string>) returns (payments: seq<string>)
    ensures Arranged(payments, all)
  {
    var left, unsorted := all, [];
    while left != {}
      invariant left <= all
      invariant forall i, j :: 0 <= i < j < |unsorted| ==> unsorted[i] != unsorted[j]
      invariant forall x :: x in unsorted <==> x in all && x !in left
      decreases left
    {
      var x :| x in left;
      left := left - {x};
      unsorted := unsorted + [x];
    }
    payments := SortBy(unsorted, StringLeq);
    SortedStrings(unsorted);
  }

  /** `m` maps each payment to the last row it has. */
  ghost predicate Indexes(m: map<string, Internal>, rows: seq<Internal>) {
    forall id :: LastRow(rows, id) == (if id in m then Some(m[id]) else None)
  }

  ghost predicate Groups(m: map<string, seq<External>>, rows: seq<External>) {
    && (forall id :: RowsOf(rows, id) == (if id in m then m[id] else []))
    && (forall id :: id in m ==> m[id] != [])
  }

  method Index(rows: seq<Internal>) returns (m: map<string, Internal>)
    ensures Indexes(m, rows)
  {
    m := map[];
    for i := 0 to |rows|
      invariant Indexes(m, rows[..i])
    {
      assert rows[..i + 1] == rows[..i] + [rows[i]];
      IndexesAppend(m, rows[..i], rows[i]);
      m := m[rows[i].payment := rows[i]];
    }
    assert rows[..|rows|] == rows;
  }

  method Group(rows: seq<External>) returns (m: map<string, seq<External>>)
    ensures Groups(m, rows)
  {
    m := map[];
    for i := 0 to |rows|
      invariant Groups(m, rows[..i])
    {
      var row := rows[i];
      assert rows[..i + 1] == rows[..i] + [row];
      GroupsAppend(m, rows[..i], row);
      m := m[row.payment := (if row.payment in m then m[row.payment] else []) + [row]];
    }
    assert rows[..|rows|] == rows;
  }

  method Reconcile(internal: seq<Internal>, external: seq<External>, at: int) returns (r: Report)
    ensures Reconciled(internal, external, at, r)
  {
    var internalById := Index(internal);
    var externalById := Group(external);
    KeysArePayments(internal, external, internalById.Keys, externalById.Keys);
    var payments := Arrange(internalById.Keys + externalById.Keys);
    var items: seq<Item> := [];
    for i := 0 to |payments|
      invariant items == ItemsOfAll(internal, external, payments[..i])
    {
      var id := payments[i];
      MoreItems(internal, external, payments, i);
      var actual := SortBy(if id in externalById then externalById[id] else [], ByReference);
      items := items + Classify(if id in internalById then Some(internalById[id]) else None, actual);
    }
    assert payments[..|payments|] == payments;
    items := SortBy(items, ByKey);
    r := ReportOf(internal, external, at, items);
  }

  lemma MoreItems(internal: seq<Internal>, external: seq<External>, payments: seq<string>, i: nat)
    requires i < |payments|
    ensures ItemsOfAll(internal, external, payments[..i + 1]) ==
            ItemsOfAll(internal, external, payments[..i]) + ItemsOf(internal, external, payments[i])
  {
    assert payments[..i + 1][..i] == payments[..i];
  }

  lemma IndexesAppend(m: map<string, Internal>, rows: seq<Internal>, row: Internal)
    requires Indexes(m, rows)
    ensures Indexes(m[row.payment := row], rows + [row])
  {
    assert (rows + [row])[..|rows|] == rows;
  }

  lemma GroupsAppend(m: map<string, seq<External>>, rows: seq<External>, row: External)
    requires Groups(m, rows)
    ensures Groups(m[row.payment := (if row.payment in m then m[row.payment] else []) + [row]], rows + [row])
  {
    assert (rows + [row])[..|rows|] == rows;
  }

  lemma SortedStrings(unsorted: seq<string>)
    requires forall i, j :: 0 <= i < j < |unsorted| ==> unsorted[i] != unsorted[j]
    ensures Ordered(SortBy(unsorted, StringLeq), StringLeq)
    ensures var r := SortBy(unsorted, StringLeq);
            && (forall i, j :: 0 <= i < j < |r| ==> r[i] != r[j])
            && forall x :: x in r <==> x in unsorted
  {
    StringsAreOrdered();
    SortOrders(unsorted, StringLeq);
    SortPermutes(unsorted, StringLeq);
    var r := SortBy(unsorted, StringLeq);
    DistinctByCount(unsorted);
    assert forall x :: x in r <==> x in multiset(r);
    assert forall x :: x in unsorted <==> x in multiset(unsorted);
    CountDistinct(r);
  }

  lemma {:induction false} DistinctByCount(xs: seq<string>)
    requires forall i, j :: 0 <= i < j < |xs| ==> xs[i] != xs[j]
    ensures forall x :: multiset(xs)[x] <= 1
  {
    if xs != [] {
      DistinctByCount(xs[1..]);
      ConsMultiset(xs[0], xs[1..]);
      assert xs == [xs[0]] + xs[1..];
      assert xs[0] !in xs[1..];
    }
  }

  lemma {:induction false} CountDistinct(xs: seq<string>)
    requires forall x :: multiset(xs)[x] <= 1
    ensures forall i, j :: 0 <= i < j < |xs| ==> xs[i] != xs[j]
  {
    if xs != [] {
      ConsMultiset(xs[0], xs[1..]);
      assert xs == [xs[0]] + xs[1..];
      forall x ensures multiset(xs[1..])[x] <= 1 && multiset(xs[1..])[xs[0]] == 0 {
        assert multiset(xs)[x] <= 1 && multiset(xs)[xs[0]] <= 1;
        assert (multiset{xs[0]} + multiset(xs[1..]))[x] == multiset{xs[0]}[x] + multiset(xs[1..])[x];
        assert (multiset{xs[0]} + multiset(xs[1..]))[xs[0]] == 1 + multiset(xs[1..])[xs[0]];
      }
      assert xs[0] !in multiset(xs[1..]);
      CountDistinct(xs[1..]);
    }
  }

  lemma {:induction false} LastRowPresent(rows: seq<Internal>, id: string)
    ensures LastRow(rows, id).Some? <==> exists i :: 0 <= i < |rows| && rows[i].payment == id
    ensures LastRow(rows, id).Some? ==> LastRow(rows, id).value.payment == id && LastRow(rows, id).value in rows
    decreases |rows|
  {
    if rows != [] {
      LastRowPresent(rows[..|rows| - 1], id);
    }
  }

  lemma {:induction false} RowsPresent(rows: seq<External>, id: string)
    ensures RowsOf(rows, id) != [] <==> exists i :: 0 <= i < |rows| && rows[i].payment == id
    ensures forall i :: 0 <= i < |RowsOf(rows, id)| ==> RowsOf(rows, id)[i].payment == id
    decreases |rows|
  {
    if rows != [] {
      RowsPresent(rows[..|rows| - 1], id);
    }
  }

  lemma KeysArePayments(internal: seq<Internal>, external: seq<External>, ids: set<string>, jds: set<string>)
    requires forall id :: id in ids <==> LastRow(internal, id).Some?
    requires forall id :: id in jds <==> RowsOf(external, id) != []
    ensures ids + jds == Payments(internal, external)
  {
    forall id ensures id in ids + jds <==> id in Payments(internal, external) {
      LastRowPresent(internal, id);
      RowsPresent(external, id);
    }
  }
}
