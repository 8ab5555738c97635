/** The settlement rows expected from completed transfers and returns. */
module SettlementExpectations {
  import opened Wrappers
  import opened Sorting
  import opened Settlement
  import SettlementTheorems
  import SettlementOrder
  import A = Ach
  import R = AchReturns

  datatype MatchingKey = MatchingKey(payment: string, direction: Direction)

  function KeyOf(row: Internal): MatchingKey {
    MatchingKey(row.payment, row.direction)
  }

  function RowFor(payment: string, cents: int, direction: Direction, at: int): Internal {
    Internal("SETTLEMENT-" + payment, payment, cents, direction, at)
  }

  /** The rows of the completed transfers, in order. */
  function TransferRows(transfers: seq<A.Transfer>, at: int): seq<Internal> {
    if transfers == [] then []
    else
      var t := transfers[|transfers| - 1];
      TransferRows(transfers[..|transfers| - 1], at)
      + (if t.status == A.Completed then [RowFor(t.request.id, t.request.cents, Outbound, at)] else [])
  }

  function ReturnRows(returned: seq<R.Return>, at: int): seq<Internal> {
    if returned == [] then []
    else
      var r := returned[|returned| - 1];
      ReturnRows(returned[..|returned| - 1], at)
      + (if r.status == R.Completed then [RowFor(r.request.id, r.request.cents, Return, at)] else [])
  }

  predicate ByPayment(a: Internal, b: Internal) {
    if a.payment != b.payment then StringLeq(a.payment, b.payment)
    else StringLeq(DirectionText(a.direction), DirectionText(b.direction))
  }

  /** The row that a dictionary filled from `rows` keeps under a key: the last one. */
  function LastUnder(rows: seq<Internal>, key: MatchingKey): Option<Internal> {
    if rows == [] then None
    else if KeyOf(rows[|rows| - 1]) == key then Some(rows[|rows| - 1])
    else LastUnder(rows[..|rows| - 1], key)
  }

  /** One row for each key that `rows` have, the last of them, in order of payment and direction. */
  ghost predicate Expects(expected: seq<Internal>, rows: seq<Internal>) {
    && Ordered(expected, ByPayment)
    && (forall i, j :: 0 <= i < j < |expected| ==> KeyOf(expected[i]) != KeyOf(expected[j]))
    && (forall row :: row in expected <==> LastUnder(rows, KeyOf(row)) == Some(row))
  }

  // ----- The dictionary -----

  ghost predicate Keeps(keys: seq<MatchingKey>, m: map<MatchingKey, Internal>, rows: seq<Internal>) {
    && (forall i, j :: 0 <= i < j < |keys| ==> keys[i] != keys[j])
    && (forall k :: k in keys <==> k in m)
    && (forall k :: LastUnder(rows, k) == if k in m then Some(m[k]) else None)
  }

  lemma KeepsAppend(keys: seq<MatchingKey>, m: map<MatchingKey, Internal>, rows: seq<Internal>, row: Internal)
    requires Keeps(keys, m, rows)
    ensures Keeps(if KeyOf(row) in m then keys else keys + [KeyOf(row)], m[KeyOf(row) := row], rows + [row])
  {
    assert (rows + [row])[..|rows|] == rows;
  }

  lemma {:induction false} KeptIsNamed(rows: seq<Internal>, k: MatchingKey)
    ensures LastUnder(rows, k).Some? ==> KeyOf(LastUnder(rows, k).value) == k && LastUnder(rows, k).value in rows
    decreases |rows|
  {
    if rows != [] {
      KeptIsNamed(rows[..|rows| - 1], k);
    }
  }

  lemma {:induction false} KeptIsThere(rows: seq<Internal>, row: Internal)
    requires row in rows
    ensures LastUnder(rows, KeyOf(row)).Some?
    decreases |rows|
  {
    var init, last := rows[..|rows| - 1], rows[|rows| - 1];
    assert rows == init + [last];
    if KeyOf(last) != KeyOf(row) {
      KeptIsThere(init, row);
    }
  }

  // ----- The order of the rows -----

  lemma RowsTransitive(a: Internal, b: Internal, c: Internal)
    requires ByPayment(a, b) && ByPayment(b, c)
    ensures ByPayment(a, c)
  {
    if a.payment == b.payment == c.payment {
      StringTransitive(DirectionText(a.direction), DirectionText(b.direction), DirectionText(c.direction));
    } else {
      StringTotal(b.payment, b.payment);
      StringTransitive(a.payment, b.payment, c.payment);
      if a.payment == c.payment {
        StringAntisymmetric(a.payment, b.payment);
      }
    }
  }

  lemma RowsAreOrdered()
    ensures TotalPreorder(ByPayment)
  {
    forall a: Internal, b: Internal ensures ByPayment(a, b) || ByPayment(b, a) {
      StringTotal(a.payment, b.payment);
      StringTotal(DirectionText(a.direction), DirectionText(b.direction));
    }
    forall a: Internal, b: Internal, c: Internal | ByPayment(a, b) && ByPayment(b, c) ensures ByPayment(a, c) {
      RowsTransitive(a, b, c);
    }
  }

  ghost predicate DistinctKeys(rows: seq<Internal>) {
    forall i, j :: 0 <= i < j < |rows| ==> KeyOf(rows[i]) != KeyOf(rows[j])
  }

  lemma {:induction false} DistinctKeysCount(rows: seq<Internal>, row: Internal)
    requires DistinctKeys(rows)
    ensures multiset(rows)[row] <= 1
    decreases |rows|
  {
    if rows != [] {
      var init, last := rows[..|rows| - 1], rows[|rows| - 1];
      assert rows == init + [last];
      DistinctKeysCount(init, row);
      assert forall i :: 0 <= i < |init| ==> init[i] == rows[i] && KeyOf(rows[i]) != KeyOf(last);
      assert row == last ==> row !in init;
    }
  }

  lemma DistinctKeysPermuted(rows: seq<Internal>, others: seq<Internal>)
    requires DistinctKeys(rows) && multiset(rows) == multiset(others)
    ensures DistinctKeys(others)
  {
    forall i, j | 0 <= i < j < |others| ensures KeyOf(others[i]) != KeyOf(others[j]) {
      assert others[i] in multiset(rows) && others[j] in multiset(rows);
      DistinctKeysCount(rows, others[i]);
      TwiceCounts(others, i, j);
    }
  }

  lemma TwiceCounts(rows: seq<Internal>, i: nat, j: nat)
    requires i < j < |rows|
    ensures rows[i] == rows[j] ==> multiset(rows)[rows[i]] >= 2
  {
    assert rows == rows[..i] + [rows[i]] + rows[i + 1..j] + [rows[j]] + rows[j + 1..];
  }

  // ----- Deriving the expectations -----

  function Values(keys: seq<MatchingKey>, m: map<MatchingKey, Internal>): (r: seq<Internal>)
    requires forall k :: k in keys ==> k in m
    ensures |r| == |keys| && forall i :: 0 <= i < |keys| ==> r[i] == m[keys[i]]
  {
    seq(|keys|, i requires 0 <= i < |keys| => m[keys[i]])
  }

  lemma ValuesAreKept(keys: seq<MatchingKey>, m: map<MatchingKey, Internal>, rows: seq<Internal>)
    requires Keeps(keys, m, rows)
    ensures DistinctKeys(Values(keys, m))
    ensures forall row :: row in Values(keys, m) <==> LastUnder(rows, KeyOf(row)) == Some(row)
  {
    var values := Values(keys, m);
    forall i | 0 <= i < |keys| ensures KeyOf(values[i]) == keys[i] {
      assert keys[i] in m;
      KeptIsNamed(rows, keys[i]);
    }
    forall row | LastUnder(rows, KeyOf(row)) == Some(row) ensures row in values {
      var i :| 0 <= i < |keys| && keys[i] == KeyOf(row);
      assert values[i] == row;
    }
  }

  lemma SortedValues(values: seq<Internal>, rows: seq<Internal>)
    requires DistinctKeys(values)
    requires forall row :: row in values <==> LastUnder(rows, KeyOf(row)) == Some(row)
    ensures Expects(SortBy(values, ByPayment), rows)
  {
    var sorted := SortBy(values, ByPayment);
    SortPermutes(values, ByPayment);
    RowsAreOrdered();
    SortOrders(values, ByPayment);
    DistinctKeysPermuted(values, sorted);
    SettlementOrder.SameMembers(sorted, values);
  }

  method Remember(keys: seq<MatchingKey>, m: map<MatchingKey, Internal>, row: Internal, ghost rows: seq<Internal>)
    returns (keys': seq<MatchingKey>, m': map<MatchingKey, Internal>)
    requires Keeps(keys, m, rows)
    ensures Keeps(keys', m', rows + [row])
  {
    KeepsAppend(keys, m, rows, row);
    keys' := if KeyOf(row) in m then keys else keys + [KeyOf(row)];
    m' := m[KeyOf(row) := row];
  }

  /** Derive one row for each payment and direction from the completed workflows. */
  method Expectations(transfers: seq<A.Transfer>, returned: seq<R.Return>, at: int) returns (expected: seq<Internal>)
    ensures Expects(expected, TransferRows(transfers, at) + ReturnRows(returned, at))
  {
    var keys: seq<MatchingKey>, m: map<MatchingKey, Internal> := [], map[];
    ghost var rows: seq<Internal> := [];
    for i := 0 to |transfers|
      invariant Keeps(keys, m, rows) && rows == TransferRows(transfers[..i], at)
    {
      var t := transfers[i];
      assert transfers[..i + 1][..i] == transfers[..i];
      if t.status == A.Completed {
        keys, m := Remember(keys, m, RowFor(t.request.id, t.request.cents, Outbound, at), rows);
        rows := rows + [RowFor(t.request.id, t.request.cents, Outbound, at)];
      }
    }
    assert transfers[..|transfers|] == transfers;
    ghost var outbound := rows;
    for i := 0 to |returned|
      invariant Keeps(keys, m, rows) && rows == outbound + ReturnRows(returned[..i], at)
    {
      var r := returned[i];
      assert returned[..i + 1][..i] == returned[..i];
      if r.status == R.Completed {
        keys, m := Remember(keys, m, RowFor(r.request.id, r.request.cents, Return, at), rows);
        rows := rows + [RowFor(r.request.id, r.request.cents, Return, at)];
      }
    }
    assert returned[..|returned|] == returned;
    ValuesAreKept(keys, m, rows);
    SortedValues(Values(keys, m), rows);
    expected := SortBy(Values(keys, m), ByPayment);
  }

  // ----- When the expectations can be reconciled -----

  ghost predicate CompletedTransfer(transfers: seq<A.Transfer>, id: string) {
    exists t :: t in transfers && t.status == A.Completed && t.request.id == id
  }

  ghost predicate CompletedReturn(returned: seq<R.Return>, id: string) {
    exists r :: r in returned && r.status == R.Completed && r.request.id == id
  }

  lemma {:induction false} TransferRowsHave(transfers: seq<A.Transfer>, at: int, id: string)
    ensures forall row :: row in TransferRows(transfers, at) ==> row.direction == Outbound
    ensures CompletedTransfer(transfers, id) <==> exists row :: row in TransferRows(transfers, at) && row.payment == id
    decreases |transfers|
  {
    if transfers != [] {
      var init, last := transfers[..|transfers| - 1], transfers[|transfers| - 1];
      TransferRowsHave(init, at, id);
      assert transfers == init + [last];
      var rows := TransferRows(transfers, at);
      if last.status == A.Completed {
        assert rows[|rows| - 1].payment == last.request.id;
      }
      if CompletedTransfer(init, id) {
        var row :| row in TransferRows(init, at) && row.payment == id;
        assert row in rows;
      }
    }
  }

  lemma {:induction false} ReturnRowsHave(returned: seq<R.Return>, at: int, id: string)
    ensures forall row :: row in ReturnRows(returned, at) ==> row.direction == Return
    ensures CompletedReturn(returned, id) <==> exists row :: row in ReturnRows(returned, at) && row.payment == id
    decreases |returned|
  {
    if returned != [] {
      var init, last := returned[..|returned| - 1], returned[|returned| - 1];
      ReturnRowsHave(init, at, id);
      assert returned == init + [last];
      var rows := ReturnRows(returned, at);
      if last.status == R.Completed {
        assert rows[|rows| - 1].payment == last.request.id;
      }
      if CompletedReturn(init, id) {
        var row :| row in ReturnRows(init, at) && row.payment == id;
        assert row in rows;
      }
    }
  }

  /** A payment is expected in a direction exactly when it has a row in it. */
  lemma ExpectedIff(expected: seq<Internal>, rows: seq<Internal>, row: Internal)
    requires Expects(expected, rows) && row in rows
    ensures exists kept :: kept in expected && KeyOf(kept) == KeyOf(row)
  {
    KeptIsThere(rows, row);
    KeptIsNamed(rows, KeyOf(row));
    assert LastUnder(rows, KeyOf(row)).value in expected;
  }

  lemma SharedIdentifier(expected: seq<Internal>, transfers: seq<A.Transfer>, returned: seq<R.Return>, at: int, id: string)
    requires Expects(expected, TransferRows(transfers, at) + ReturnRows(returned, at))
    requires CompletedTransfer(transfers, id) && CompletedReturn(returned, id)
    ensures !SettlementTheorems.DistinctPayments(expected)
  {
    var rows := TransferRows(transfers, at) + ReturnRows(returned, at);
    TransferRowsHave(transfers, at, id);
    ReturnRowsHave(returned, at, id);
    var out :| out in TransferRows(transfers, at) && out.payment == id;
    var back :| back in ReturnRows(returned, at) && back.payment == id;
    assert out in rows && back in rows;
    ExpectedIff(expected, rows, out);
    ExpectedIff(expected, rows, back);
    var x :| x in expected && KeyOf(x) == KeyOf(out);
    var y :| y in expected && KeyOf(y) == KeyOf(back);
    var i :| 0 <= i < |expected| && expected[i] == x;
    var j :| 0 <= j < |expected| && expected[j] == y;
    assert i != j;
  }

  lemma SeparateIdentifiers(expected: seq<Internal>, transfers: seq<A.Transfer>, returned: seq<R.Return>, at: int, i: nat, j: nat)
    requires Expects(expected, TransferRows(transfers, at) + ReturnRows(returned, at))
    requires i < j < |expected| && expected[i].payment == expected[j].payment
    ensures CompletedTransfer(transfers, expected[i].payment) && CompletedReturn(returned, expected[i].payment)
  {
    var rows := TransferRows(transfers, at) + ReturnRows(returned, at);
    var id := expected[i].payment;
    TransferRowsHave(transfers, at, id);
    ReturnRowsHave(returned, at, id);
    KeptIsNamed(rows, KeyOf(expected[i]));
    KeptIsNamed(rows, KeyOf(expected[j]));
    assert expected[i] in expected && expected[j] in expected;
    assert expected[i] in rows && expected[j] in rows;
    assert KeyOf(expected[i]) != KeyOf(expected[j]);
  }

  /**
   The expectations name every payment once, as a trustworthy reconciliation
   needs, exactly when no completed return has the identifier of a completed transfer.
   */
  lemma ExpectationsDistinctIff(expected: seq<Internal>, transfers: seq<A.Transfer>, returned: seq<R.Return>, at: int)
    requires Expects(expected, TransferRows(transfers, at) + ReturnRows(returned, at))
    ensures SettlementTheorems.DistinctPayments(expected) <==>
            !exists id :: CompletedTransfer(transfers, id) && CompletedReturn(returned, id)
  {
    if id :| CompletedTransfer(transfers, id) && CompletedReturn(returned, id) {
      SharedIdentifier(expected, transfers, returned, at, id);
    }
    if i, j :| 0 <= i < j < |expected| && expected[i].payment == expected[j].payment {
      SeparateIdentifiers(expected, transfers, returned, at, i, j);
    }
  }

  /** Rows with different keys, in order, are their own expectations. */
  lemma {:induction false} LastOfDistinct(rows: seq<Internal>, row: Internal)
    requires DistinctKeys(rows) && row in rows
    ensures LastUnder(rows, KeyOf(row)) == Some(row)
    decreases |rows|
  {
    var init, last := rows[..|rows| - 1], rows[|rows| - 1];
    assert rows == init + [last];
    if row != last {
      var i :| 0 <= i < |init| && init[i] == row;
      assert KeyOf(rows[i]) != KeyOf(rows[|init|]);
      LastOfDistinct(init, row);
    }
  }

  lemma DistinctExpectThemselves(rows: seq<Internal>)
    requires Ordered(rows, ByPayment) && DistinctKeys(rows)
    ensures Expects(rows, rows)
  {
    forall row ensures row in rows <==> LastUnder(rows, KeyOf(row)) == Some(row) {
      KeptIsNamed(rows, KeyOf(row));
      if row in rows {
        LastOfDistinct(rows, row);
      }
    }
  }

  /** A completed transfer and a completed return under one identifier: the expectations contain that payment twice. */
  lemma SharedIdentifierExample()
    ensures var t := A.Transfer(A.TransferRequest("X", "ACC", "BANK", "REF", 500, ""), A.Completed, None, []);
            var r := R.Return(R.ReturnRequest("X", "ACH-1", 500), 0, R.Completed, Some(5), None, None, []);
            var expected := [RowFor("X", 500, Outbound, 10), RowFor("X", 500, Return, 10)];
            && Expects(expected, TransferRows([t], 10) + ReturnRows([r], 10))
            && !SettlementTheorems.DistinctPayments(expected)
  {
    var t := A.Transfer(A.TransferRequest("X", "ACC", "BANK", "REF", 500, ""), A.Completed, None, []);
    var r := R.Return(R.ReturnRequest("X", "ACH-1", 500), 0, R.Completed, Some(5), None, None, []);
    var out, back := RowFor("X", 500, Outbound, 10), RowFor("X", 500, Return, 10);
    assert [t][..0] == [] && [r][..0] == [];
    assert TransferRows([t], 10) + ReturnRows([r], 10) == [out, back];
    assert DirectionText(Outbound)[0] == 'O' && DirectionText(Return)[0] == 'R';
    assert ByPayment(out, back);
    DistinctExpectThemselves([out, back]);
    assert [out, back][0].payment == [out, back][1].payment;
  }
}
