/** When reconciliation reports no exception. */
module SettlementAgreement {
  import opened Wrappers
  import opened Sorting
  import opened Settlement
  import opened SettlementTheorems

  datatype Key = Key(payment: string, direction: Direction, cents: int)

  ghost function InternalKey(row: Internal): Key { Key(row.payment, row.direction, row.cents) }

  ghost function ExternalKey(row: External): Key { Key(row.payment, row.direction, row.cents) }

  ghost function InternalKeys(rows: seq<Internal>): multiset<Key> {
    multiset(MapSeq(rows, InternalKey))
  }

  ghost function ExternalKeys(rows: seq<External>): multiset<Key> {
    multiset(MapSeq(rows, ExternalKey))
  }

  /** The two sides hold the same payments, directions and amounts, each as often. */
  ghost predicate SidesAgree(internal: seq<Internal>, external: seq<External>) {
    InternalKeys(internal) == ExternalKeys(external)
  }

  // ----- Counting keys payment by payment -----

  ghost function LastKeys(rows: seq<Internal>, payment: string): multiset<Key> {
    if LastRow(rows, payment).Some? then multiset{InternalKey(LastRow(rows, payment).value)} else multiset{}
  }

  lemma InternalKeysAppend(rows: seq<Internal>, row: Internal)
    ensures InternalKeys(rows + [row]) == InternalKeys(rows) + multiset{InternalKey(row)}
  {
    assert MapSeq(rows + [row], InternalKey) == MapSeq(rows, InternalKey) + [InternalKey(row)];
  }

  lemma ExternalKeysAppend(rows: seq<External>, row: External)
    ensures ExternalKeys(rows + [row]) == ExternalKeys(rows) + multiset{ExternalKey(row)}
  {
    assert MapSeq(rows + [row], ExternalKey) == MapSeq(rows, ExternalKey) + [ExternalKey(row)];
  }

  lemma {:induction false} LastRowIsNamed(rows: seq<Internal>, payment: string)
    ensures LastRow(rows, payment).Some? ==> LastRow(rows, payment).value.payment == payment
    decreases |rows|
  {
    if rows != [] {
      LastRowIsNamed(rows[..|rows| - 1], payment);
    }
  }

  /** An external key counts what the group of its payment counts. */
  lemma {:induction false} ExternalCount(rows: seq<External>, k: Key)
    ensures ExternalKeys(rows)[k] == ExternalKeys(RowsOf(rows, k.payment))[k]
    decreases |rows|
  {
    if rows != [] {
      var init, row := rows[..|rows| - 1], rows[|rows| - 1];
      ExternalCount(init, k);
      assert rows == init + [row];
      ExternalKeysAppend(init, row);
      if row.payment == k.payment {
        ExternalKeysAppend(RowsOf(init, k.payment), row);
      } else {
        assert RowsOf(rows, k.payment) == RowsOf(init, k.payment);
      }
    }
  }

  /** With distinct payments, an internal key is there once or not at all. */
  lemma {:induction false} InternalCount(rows: seq<Internal>, k: Key)
    requires DistinctPayments(rows)
    ensures InternalKeys(rows)[k] == LastKeys(rows, k.payment)[k]
    decreases |rows|
  {
    if rows != [] {
      var init, row := rows[..|rows| - 1], rows[|rows| - 1];
      InternalCount(init, k);
      assert rows == init + [row];
      InternalKeysAppend(init, row);
      LastRowPresent(init, row.payment);
    }
  }

  lemma GroupKeysAreNamed(rows: seq<External>, payment: string, k: Key)
    requires k.payment != payment
    ensures ExternalKeys(RowsOf(rows, payment))[k] == 0
  {
    RowsPresent(rows, payment);
    assert k !in MapSeq(RowsOf(rows, payment), ExternalKey);
  }

  lemma LastKeysAreNamed(rows: seq<Internal>, payment: string, k: Key)
    requires k.payment != payment
    ensures LastKeys(rows, payment)[k] == 0
  {
    LastRowIsNamed(rows, payment);
  }

  /** The two sides of one payment hold the same keys. */
  ghost predicate AgreesOn(internal: seq<Internal>, external: seq<External>, payment: string) {
    LastKeys(internal, payment) == ExternalKeys(RowsOf(external, payment))
  }

  ghost predicate AgreesEverywhere(internal: seq<Internal>, external: seq<External>) {
    forall payment :: AgreesOn(internal, external, payment)
  }

  lemma AgreeingSidesAgreeOn(internal: seq<Internal>, external: seq<External>, payment: string)
    requires DistinctPayments(internal) && SidesAgree(internal, external)
    ensures AgreesOn(internal, external, payment)
  {
    forall k: Key ensures LastKeys(internal, payment)[k] == ExternalKeys(RowsOf(external, payment))[k] {
      if k.payment == payment {
        InternalCount(internal, k);
        ExternalCount(external, k);
      } else {
        LastKeysAreNamed(internal, payment, k);
        GroupKeysAreNamed(external, payment, k);
      }
    }
  }

  lemma AgreementIsByPayment(internal: seq<Internal>, external: seq<External>)
    requires DistinctPayments(internal)
    ensures SidesAgree(internal, external) <==> AgreesEverywhere(internal, external)
  {
    if SidesAgree(internal, external) {
      forall payment ensures AgreesOn(internal, external, payment) {
        AgreeingSidesAgreeOn(internal, external, payment);
      }
    }
    if AgreesEverywhere(internal, external) {
      forall k: Key ensures InternalKeys(internal)[k] == ExternalKeys(external)[k] {
        InternalCount(internal, k);
        ExternalCount(external, k);
        assert AgreesOn(internal, external, k.payment);
      }
    }
  }

  // ----- Items and agreement -----

  ghost predicate AllMatched(items: seq<Item>) {
    forall i :: 0 <= i < |items| ==> items[i].status == Matched
  }

  lemma MatchedHead(items: seq<Item>)
    requires items != []
    ensures StatusCount(items, Matched) == (if items[0].status == Matched then 1 else 0) + StatusCount(items[1..], Matched)
  {
  }

  lemma {:induction false} NoExceptionsMeansMatched(items: seq<Item>)
    ensures 0 <= StatusCount(items, Matched) <= |items|
    ensures Exceptions(items) == 0 <==> AllMatched(items)
  {
    if items != [] {
      NoExceptionsMeansMatched(items[1..]);
      MatchedHead(items);
      assert AllMatched(items) <==> items[0].status == Matched && AllMatched(items[1..]);
    }
  }

  lemma MatchedPermuted(items: seq<Item>, others: seq<Item>)
    requires multiset(items) == multiset(others) && AllMatched(items)
    ensures AllMatched(others)
  {
    forall i | 0 <= i < |others| ensures others[i].status == Matched {
      assert others[i] in multiset(items);
    }
  }

  lemma ExternalKeysOfSame(xs: seq<External>, ys: seq<External>)
    requires multiset(xs) == multiset(ys)
    ensures ExternalKeys(xs) == ExternalKeys(ys)
  {
    MapOfSame(xs, ys, ExternalKey);
  }

  lemma KeysSize(rows: seq<External>)
    ensures |ExternalKeys(rows)| == |rows|
  {
  }

  lemma OneKey(row: External)
    ensures ExternalKeys([row]) == multiset{ExternalKey(row)}
  {
    assert MapSeq([row], ExternalKey) == [ExternalKey(row)];
  }

  lemma OneMatched(item: Item)
    ensures AllMatched([item]) <==> item.status == Matched
  {
    assert [item][0] == item;
  }

  /** The sorted rows of a payment are classified without exception exactly when they are the expected key. */
  lemma ClassifiedMatched(expected: Option<Internal>, actual: seq<External>, payment: string)
    requires expected.Some? ==> expected.value.payment == payment
    requires forall i :: 0 <= i < |actual| ==> actual[i].payment == payment
    ensures AllMatched(Classify(expected, actual)) <==>
            ExternalKeys(actual) == if expected.Some? then multiset{InternalKey(expected.value)} else multiset{}
  {
    KeysSize(actual);
    if expected.None? {
      if actual != [] {
        assert Classify(expected, actual)[0].status == UnexpectedExternally;
      }
    } else if |actual| == 1 {
      var row := expected.value;
      OneKey(actual[0]);
      assert actual == [actual[0]];
      OneMatched(Paired(row, actual[0]));
      assert (ExternalKey(actual[0]) in multiset{InternalKey(row)}) <==> ExternalKey(actual[0]) == InternalKey(row);
    } else {
      assert Classify(expected, actual)[0].status != Matched;
      assert |multiset{InternalKey(expected.value)}| == 1;
    }
  }

  lemma PaymentMatched(internal: seq<Internal>, external: seq<External>, payment: string)
    ensures AllMatched(ItemsOf(internal, external, payment)) <==> AgreesOn(internal, external, payment)
  {
    var actual := SortBy(RowsOf(external, payment), ByReference);
    SortPermutes(RowsOf(external, payment), ByReference);
    ExternalKeysOfSame(actual, RowsOf(external, payment));
    LastRowIsNamed(internal, payment);
    RowsPresent(external, payment);
    forall i | 0 <= i < |actual| ensures actual[i].payment == payment {
      assert actual[i] in multiset(RowsOf(external, payment));
    }
    ClassifiedMatched(LastRow(internal, payment), actual, payment);
  }

  lemma MatchedConcat(xs: seq<Item>, ys: seq<Item>)
    ensures AllMatched(xs + ys) <==> AllMatched(xs) && AllMatched(ys)
  {
    if AllMatched(xs + ys) {
      assert forall i :: 0 <= i < |xs| ==> xs[i] == (xs + ys)[i];
      assert forall i :: 0 <= i < |ys| ==> ys[i] == (xs + ys)[|xs| + i];
    }
  }

  ghost predicate AgreesOver(internal: seq<Internal>, external: seq<External>, payments: seq<string>) {
    forall i :: 0 <= i < |payments| ==> AgreesOn(internal, external, payments[i])
  }

  lemma AgreesOverLast(internal: seq<Internal>, external: seq<External>, payments: seq<string>)
    requires payments != []
    ensures AgreesOver(internal, external, payments) <==>
            && AgreesOver(internal, external, payments[..|payments| - 1])
            && AgreesOn(internal, external, payments[|payments| - 1])
  {
    var init := payments[..|payments| - 1];
    assert forall i :: 0 <= i < |init| ==> init[i] == payments[i];
    if AgreesOver(internal, external, init) && AgreesOn(internal, external, payments[|payments| - 1]) {
      forall i | 0 <= i < |payments| ensures AgreesOn(internal, external, payments[i]) {
        if i < |init| {
          assert AgreesOn(internal, external, init[i]);
        }
      }
    }
  }

  lemma {:induction false} AllPaymentsMatched(internal: seq<Internal>, external: seq<External>, payments: seq<string>)
    ensures AllMatched(ItemsOfAll(internal, external, payments)) <==> AgreesOver(internal, external, payments)
    decreases |payments|
  {
    if payments != [] {
      var init, last := payments[..|payments| - 1], payments[|payments| - 1];
      AllPaymentsMatched(internal, external, init);
      PaymentMatched(internal, external, last);
      MatchedConcat(ItemsOfAll(internal, external, init), ItemsOf(internal, external, last));
      AgreesOverLast(internal, external, payments);
    }
  }

  lemma AbsentAgrees(internal: seq<Internal>, external: seq<External>, payment: string)
    requires payment !in Payments(internal, external)
    ensures AgreesOn(internal, external, payment)
  {
    LastRowPresent(internal, payment);
    RowsPresent(external, payment);
    assert forall i :: 0 <= i < |internal| ==> internal[i].payment in Payments(internal, external);
    assert forall i :: 0 <= i < |external| ==> external[i].payment in Payments(internal, external);
    assert RowsOf(external, payment) == [];
  }

  /** Zero exceptions, for any internal rows: the last row of each payment is met by its external rows. */
  lemma NoExceptionsExactly(internal: seq<Internal>, external: seq<External>, at: int, r: Report)
    requires Reconciled(internal, external, at, r)
    ensures Exceptions(r.items) == 0 <==> AgreesEverywhere(internal, external)
  {
    var payments :| Arranged(payments, Payments(internal, external))
                    && r == ReportOf(internal, external, at, SortBy(ItemsOfAll(internal, external, payments), ByKey));
    var items := ItemsOfAll(internal, external, payments);
    SortPermutes(items, ByKey);
    NoExceptionsMeansMatched(r.items);
    if AllMatched(items) {
      MatchedPermuted(items, r.items);
    }
    if AllMatched(r.items) {
      MatchedPermuted(r.items, items);
    }
    AllPaymentsMatched(internal, external, payments);
    EverywhereIsOverPayments(internal, external, payments);
  }

  lemma EverywhereIsOverPayments(internal: seq<Internal>, external: seq<External>, payments: seq<string>)
    requires Arranged(payments, Payments(internal, external))
    ensures AgreesEverywhere(internal, external) <==> AgreesOver(internal, external, payments)
  {
    if AgreesOver(internal, external, payments) {
      forall payment ensures AgreesOn(internal, external, payment) {
        if payment !in Payments(internal, external) {
          AbsentAgrees(internal, external, payment);
        }
      }
    }
  }

  /** With distinct internal payments, no exception is reported exactly when the two sides agree. */
  lemma NoExceptionsIffSidesAgree(internal: seq<Internal>, external: seq<External>, at: int, r: Report)
    requires DistinctPayments(internal) && Reconciled(internal, external, at, r)
    ensures Exceptions(r.items) == 0 <==> SidesAgree(internal, external)
  {
    NoExceptionsExactly(internal, external, at, r);
    AgreementIsByPayment(internal, external);
  }

  // ----- Internal rows that share a payment -----

  /** An external report that repeats the internal rows one for one. */
  ghost function Mirror(row: Internal): External {
    External(row.recordId, row.payment, row.cents, row.direction, row.expectedAt)
  }

  ghost predicate SamePayments(internal: seq<Internal>, external: seq<External>) {
    |internal| == |external| && forall i :: 0 <= i < |internal| ==> internal[i].payment == external[i].payment
  }

  lemma MirrorAgrees(internal: seq<Internal>)
    ensures SidesAgree(internal, MapSeq(internal, Mirror)) && SamePayments(internal, MapSeq(internal, Mirror))
  {
    assert MapSeq(MapSeq(internal, Mirror), ExternalKey) == MapSeq(internal, InternalKey);
  }

  lemma {:induction false} GroupReaches(rows: seq<External>, i: nat, j: nat, payment: string)
    requires i < j < |rows| && rows[i].payment == rows[j].payment == payment
    ensures |RowsOf(rows, payment)| >= 2
    decreases |rows|
  {
    var init := rows[..|rows| - 1];
    if j < |init| {
      GroupReaches(init, i, j, payment);
    } else {
      RowsPresent(init, payment);
      assert init[i].payment == payment;
    }
  }

  lemma SharedPaymentDisagrees(internal: seq<Internal>, external: seq<External>, i: nat, j: nat)
    requires SamePayments(internal, external)
    requires i < j < |internal| && internal[i].payment == internal[j].payment
    ensures !AgreesOn(internal, external, internal[i].payment)
  {
    var payment := internal[i].payment;
    GroupReaches(external, i, j, payment);
    KeysSize(RowsOf(external, payment));
    assert |LastKeys(internal, payment)| <= 1;
  }

  lemma {:induction false} Enumerated(all: set<string>) returns (payments: seq<string>)
    ensures forall i, j :: 0 <= i < j < |payments| ==> payments[i] != payments[j]
    ensures forall x :: x in payments <==> x in all
    decreases all
  {
    payments := [];
    if all != {} {
      var x :| x in all;
      var rest := Enumerated(all - {x});
      payments := rest + [x];
    }
  }

  lemma ReportExists(internal: seq<Internal>, external: seq<External>, at: int) returns (r: Report)
    ensures Reconciled(internal, external, at, r)
  {
    var unsorted := Enumerated(Payments(internal, external));
    SortedStrings(unsorted);
    var payments := SortBy(unsorted, StringLeq);
    assert Arranged(payments, Payments(internal, external));
    r := ReportOf(internal, external, at, SortBy(ItemsOfAll(internal, external, payments), ByKey));
  }

  /** Zero exceptions says that the two sides agree, whatever the external report. */
  ghost predicate Trustworthy(internal: seq<Internal>) {
    forall external, at, r ::
      Reconciled(internal, external, at, r) ==> (Exceptions(r.items) == 0 <==> SidesAgree(internal, external))
  }

  /**
   The report can be trusted on every external file exactly when no two internal
   rows share a payment: of rows that do, only the last one is compared.
   */
  lemma TrustworthyIffDistinct(internal: seq<Internal>)
    ensures Trustworthy(internal) <==> DistinctPayments(internal)
  {
    if DistinctPayments(internal) {
      forall external, at, r | Reconciled(internal, external, at, r)
        ensures Exceptions(r.items) == 0 <==> SidesAgree(internal, external)
      {
        NoExceptionsIffSidesAgree(internal, external, at, r);
      }
    } else {
      var i, j :| 0 <= i < j < |internal| && internal[i].payment == internal[j].payment;
      var external := MapSeq(internal, Mirror);
      MirrorAgrees(internal);
      SharedPaymentDisagrees(internal, external, i, j);
      var r := ReportExists(internal, external, 0);
      NoExceptionsExactly(internal, external, 0, r);
    }
  }

  lemma OneRowGroup(row: External, payment: string)
    ensures RowsOf([row], payment) == if row.payment == payment then [row] else []
  {
    assert [row][..0] == [];
  }

  lemma LastOfTwo(first: Internal, last: Internal, payment: string)
    requires first.payment == last.payment
    ensures LastKeys([first, last], payment) == if last.payment == payment then multiset{InternalKey(last)} else multiset{}
  {
    assert [first, last][..1] == [first] && [first][..0] == [];
    assert LastRow([first], payment) == if first.payment == payment then Some(first) else LastRow([], payment);
    assert LastRow([first, last], payment) == if last.payment == payment then Some(last) else LastRow([first], payment);
  }

  /** Of two internal rows of one payment, an external file with only the last one raises no exception. */
  lemma EarlierRowOverlooked(first: Internal, last: Internal, row: External, at: int, r: Report)
    requires first.payment == last.payment && ExternalKey(row) == InternalKey(last)
    requires Reconciled([first, last], [row], at, r)
    ensures Exceptions(r.items) == 0 && !SidesAgree([first, last], [row])
  {
    forall payment ensures AgreesOn([first, last], [row], payment) {
      OneRowGroup(row, payment);
      LastOfTwo(first, last, payment);
      OneKey(row);
    }
    NoExceptionsExactly([first, last], [row], at, r);
    assert |InternalKeys([first, last])| == 2 && |ExternalKeys([row])| == 1;
  }
}
