/** What an expected settlement row says, told from the completed transfer or return it stands for. */
module SettlementRows {
  import opened Sorting
  import opened Settlement
  import opened SettlementExpectations
  import A = Ach
  import R = AchReturns

  /** The row names the last completed transfer of its identifier, with the amount, outbound, at the time of the derivation. */
  ghost predicate OfTransfer(row: Internal, transfers: seq<A.Transfer>, at: int, i: nat) {
    && i < |transfers| && transfers[i].status == A.Completed
    && (forall j :: i < j < |transfers| && transfers[j].status == A.Completed ==> transfers[j].request.id != transfers[i].request.id)
    && row.payment == transfers[i].request.id && row.recordId == "SETTLEMENT-" + transfers[i].request.id
    && row.cents == transfers[i].request.cents && row.direction == Outbound && row.expectedAt == at
  }

  ghost predicate OfReturn(row: Internal, returned: seq<R.Return>, at: int, i: nat) {
    && i < |returned| && returned[i].status == R.Completed
    && (forall j :: i < j < |returned| && returned[j].status == R.Completed ==> returned[j].request.id != returned[i].request.id)
    && row.payment == returned[i].request.id && row.recordId == "SETTLEMENT-" + returned[i].request.id
    && row.cents == returned[i].request.cents && row.direction == Return && row.expectedAt == at
  }

  ghost predicate Derived(row: Internal, transfers: seq<A.Transfer>, returned: seq<R.Return>, at: int) {
    || (exists i: nat :: OfTransfer(row, transfers, at, i))
    || (exists i: nat :: OfReturn(row, returned, at, i))
  }

  // ----- The last row under a key -----

  lemma {:induction false} LastTransfer(transfers: seq<A.Transfer>, at: int, key: MatchingKey) returns (i: nat)
    requires LastUnder(TransferRows(transfers, at), key).Some?
    ensures OfTransfer(LastUnder(TransferRows(transfers, at), key).value, transfers, at, i)
    decreases |transfers|
  {
    var rows, init, last := TransferRows(transfers, at), transfers[..|transfers| - 1], transfers[|transfers| - 1];
    if last.status == A.Completed {
      assert rows == TransferRows(init, at) + [RowFor(last.request.id, last.request.cents, Outbound, at)];
      assert rows[..|rows| - 1] == TransferRows(init, at);
      if KeyOf(rows[|rows| - 1]) == key {
        i := |init|;
      } else {
        i := LastTransfer(init, at, key);
        KeptIsNamed(TransferRows(init, at), key);
      }
    } else {
      assert rows == TransferRows(init, at);
      i := LastTransfer(init, at, key);
    }
  }

  lemma {:induction false} LastReturn(returned: seq<R.Return>, at: int, key: MatchingKey) returns (i: nat)
    requires LastUnder(ReturnRows(returned, at), key).Some?
    ensures OfReturn(LastUnder(ReturnRows(returned, at), key).value, returned, at, i)
    decreases |returned|
  {
    var rows, init, last := ReturnRows(returned, at), returned[..|returned| - 1], returned[|returned| - 1];
    if last.status == R.Completed {
      assert rows == ReturnRows(init, at) + [RowFor(last.request.id, last.request.cents, Return, at)];
      assert rows[..|rows| - 1] == ReturnRows(init, at);
      if KeyOf(rows[|rows| - 1]) == key {
        i := |init|;
      } else {
        i := LastReturn(init, at, key);
        KeptIsNamed(ReturnRows(init, at), key);
      }
    } else {
      assert rows == ReturnRows(init, at);
      i := LastReturn(init, at, key);
    }
  }

  lemma {:induction false} LastOfBoth(rows: seq<Internal>, more: seq<Internal>, key: MatchingKey)
    ensures LastUnder(rows + more, key) == if LastUnder(more, key).Some? then LastUnder(more, key) else LastUnder(rows, key)
    decreases |more|
  {
    if more == [] {
      assert rows + more == rows;
    } else {
      var all := rows + more;
      assert all[..|all| - 1] == rows + more[..|more| - 1];
      LastOfBoth(rows, more[..|more| - 1], key);
    }
  }

  lemma KeptIsDerived(transfers: seq<A.Transfer>, returned: seq<R.Return>, at: int, key: MatchingKey)
    requires LastUnder(TransferRows(transfers, at) + ReturnRows(returned, at), key).Some?
    ensures Derived(LastUnder(TransferRows(transfers, at) + ReturnRows(returned, at), key).value, transfers, returned, at)
  {
    LastOfBoth(TransferRows(transfers, at), ReturnRows(returned, at), key);
    if LastUnder(ReturnRows(returned, at), key).Some? {
      var i := LastReturn(returned, at, key);
    } else {
      var i := LastTransfer(transfers, at, key);
    }
  }

  // ----- The expectations -----

  /** Every completed transfer and return is expected, in its direction. */
  ghost predicate NothingMissing(expected: seq<Internal>, transfers: seq<A.Transfer>, returned: seq<R.Return>) {
    && (forall t :: t in transfers && t.status == A.Completed ==> ExpectedAs(expected, t.request.id, Outbound))
    && (forall r :: r in returned && r.status == R.Completed ==> ExpectedAs(expected, r.request.id, Return))
  }

  ghost predicate ExpectedAs(expected: seq<Internal>, payment: string, direction: Direction) {
    exists row :: row in expected && row.payment == payment && row.direction == direction
  }

  /** In increasing order of payments; of two rows for one, the outbound one comes first. */
  ghost predicate InPlace(a: Internal, b: Internal) {
    StringLeq(a.payment, b.payment) && (a.payment == b.payment ==> a.direction == Outbound && b.direction == Return)
  }

  lemma {:induction false} TransferRowIn(transfers: seq<A.Transfer>, at: int, t: A.Transfer)
    requires t in transfers && t.status == A.Completed
    ensures RowFor(t.request.id, t.request.cents, Outbound, at) in TransferRows(transfers, at)
    decreases |transfers|
  {
    var init, last := transfers[..|transfers| - 1], transfers[|transfers| - 1];
    assert transfers == init + [last];
    if t == last {
      var rows := TransferRows(transfers, at);
      assert rows[|rows| - 1] == RowFor(t.request.id, t.request.cents, Outbound, at);
    } else {
      TransferRowIn(init, at, t);
    }
  }

  lemma {:induction false} ReturnRowIn(returned: seq<R.Return>, at: int, r: R.Return)
    requires r in returned && r.status == R.Completed
    ensures RowFor(r.request.id, r.request.cents, Return, at) in ReturnRows(returned, at)
    decreases |returned|
  {
    var init, last := returned[..|returned| - 1], returned[|returned| - 1];
    assert returned == init + [last];
    if r == last {
      var rows := ReturnRows(returned, at);
      assert rows[|rows| - 1] == RowFor(r.request.id, r.request.cents, Return, at);
    } else {
      ReturnRowIn(init, at, r);
    }
  }

  lemma NoneMissing(expected: seq<Internal>, transfers: seq<A.Transfer>, returned: seq<R.Return>, at: int)
    requires Expects(expected, TransferRows(transfers, at) + ReturnRows(returned, at))
    ensures NothingMissing(expected, transfers, returned)
  {
    var rows := TransferRows(transfers, at) + ReturnRows(returned, at);
    forall t | t in transfers && t.status == A.Completed ensures ExpectedAs(expected, t.request.id, Outbound) {
      TransferRowIn(transfers, at, t);
      ExpectedIff(expected, rows, RowFor(t.request.id, t.request.cents, Outbound, at));
    }
    forall r | r in returned && r.status == R.Completed ensures ExpectedAs(expected, r.request.id, Return) {
      ReturnRowIn(returned, at, r);
      ExpectedIff(expected, rows, RowFor(r.request.id, r.request.cents, Return, at));
    }
  }

  lemma NeighboursInPlace(a: Internal, b: Internal)
    requires ByPayment(a, b) && KeyOf(a) != KeyOf(b)
    ensures InPlace(a, b)
  {
    StringTotal(a.payment, a.payment);
    assert DirectionText(Outbound)[0] == 'O' && DirectionText(Return)[0] == 'R';
  }

  /** The expectations are exactly the rows of the completed workflows, the last of each identifier and direction, in place. */
  lemma RowsAreTrue(expected: seq<Internal>, transfers: seq<A.Transfer>, returned: seq<R.Return>, at: int)
    requires Expects(expected, TransferRows(transfers, at) + ReturnRows(returned, at))
    ensures forall row :: row in expected ==> Derived(row, transfers, returned, at)
    ensures NothingMissing(expected, transfers, returned)
    ensures forall i, j :: 0 <= i < j < |expected| ==> InPlace(expected[i], expected[j])
  {
    forall row | row in expected ensures Derived(row, transfers, returned, at) {
      KeptIsDerived(transfers, returned, at, KeyOf(row));
    }
    NoneMissing(expected, transfers, returned, at);
    forall i, j | 0 <= i < j < |expected| ensures InPlace(expected[i], expected[j]) {
      NeighboursInPlace(expected[i], expected[j]);
    }
  }
}
