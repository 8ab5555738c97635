/** The order of the items of a report, told from characters: payments, then statuses by name, then references. */
module SettlementSorting {
  import opened Sorting
  import opened Settlement
  import SettlementOrder

  /** The strings agree before `k`, and both have a character there. */
  ghost predicate AgreeBefore(a: string, b: string, k: nat) {
    k < |a| && k < |b| && a[..k] == b[..k]
  }

  /** `a` begins `b`, or has the smaller character where the two first differ. */
  ghost predicate Below(a: string, b: string) {
    a <= b || exists k: nat :: AgreeBefore(a, b, k) && a[k] < b[k]
  }

  lemma AgreeAtFirst(a: string, b: string, k: nat)
    requires AgreeBefore(a, b, k)
    ensures k > 0 ==> a[0] == b[0]
  {
    if k > 0 {
      assert a[..k][0] == b[..k][0];
    }
  }

  lemma {:induction false} StringLeqIs(a: string, b: string)
    ensures StringLeq(a, b) <==> Below(a, b)
    decreases |a|
  {
    if a != [] && b != [] {
      if a[0] == b[0] {
        StringLeqIs(a[1..], b[1..]);
        BelowTail(a, b);
      } else {
        assert a[0] < b[0] ==> AgreeBefore(a, b, 0);
        forall k: nat | AgreeBefore(a, b, k) ensures k == 0 {
          AgreeAtFirst(a, b, k);
        }
      }
    }
  }

  lemma BelowTail(a: string, b: string)
    requires a != [] && b != [] && a[0] == b[0]
    ensures Below(a[1..], b[1..]) <==> Below(a, b)
  {
    var x, y := a[1..], b[1..];
    assert a == [a[0]] + x && b == [b[0]] + y;
    if k: nat :| AgreeBefore(x, y, k) && x[k] < y[k] {
      assert a[..k + 1] == [a[0]] + x[..k] && b[..k + 1] == [b[0]] + y[..k];
      assert AgreeBefore(a, b, k + 1) && a[k + 1] < b[k + 1];
    }
    if k: nat :| AgreeBefore(a, b, k) && a[k] < b[k] {
      assert x[..k - 1] == a[..k][1..] && y[..k - 1] == b[..k][1..];
      assert AgreeBefore(x, y, k - 1) && x[k - 1] < y[k - 1];
    }
  }

  /** The place of a status by its name. */
  function Rank(s: Status): nat {
    match s
    case AmountMismatch => 0
    case DirectionMismatch => 1
    case DuplicateExternally => 2
    case Matched => 3
    case MissingExternally => 4
    case UnexpectedExternally => 5
  }

  lemma FirstDiffers(a: string, b: string)
    requires a != [] && b != [] && a[0] != b[0]
    ensures StringLeq(a, b) <==> a[0] < b[0]
  {
  }

  lemma SecondDiffers(a: string, b: string)
    requires |a| > 1 && |b| > 1 && a[0] == b[0] && a[1] != b[1]
    ensures StringLeq(a, b) <==> a[1] < b[1]
  {
    FirstDiffers(a[1..], b[1..]);
  }

  lemma NamesBegin(s: Status)
    ensures |StatusText(s)| > 1
    ensures StatusText(s)[0] == match Rank(s) case 0 => 'A' case 1 => 'D' case 2 => 'D' case 3 => 'M' case 4 => 'M' case _ => 'U'
    ensures Rank(s) == 1 ==> StatusText(s)[1] == 'i'
    ensures Rank(s) == 2 ==> StatusText(s)[1] == 'u'
    ensures Rank(s) == 3 ==> StatusText(s)[1] == 'a'
    ensures Rank(s) == 4 ==> StatusText(s)[1] == 'i'
  {
  }

  lemma NamesInOrder(x: Status, y: Status)
    requires x != y
    ensures StringLeq(StatusText(x), StatusText(y)) <==> Rank(x) < Rank(y)
  {
    NamesBegin(x);
    NamesBegin(y);
    if StatusText(x)[0] != StatusText(y)[0] {
      FirstDiffers(StatusText(x), StatusText(y));
    } else {
      SecondDiffers(StatusText(x), StatusText(y));
    }
  }

  ghost predicate InPlace(a: Item, b: Item) {
    && Below(a.payment, b.payment)
    && (a.payment == b.payment ==> Rank(a.status) <= Rank(b.status))
    && (a.payment == b.payment && a.status == b.status ==> Below(a.reference, b.reference))
  }

  lemma KeysInPlace(a: Item, b: Item)
    requires ByKey(a, b)
    ensures InPlace(a, b)
  {
    StringLeqIs(a.payment, b.payment);
    StringLeqIs(a.reference, b.reference);
    if a.status != b.status {
      NamesInOrder(a.status, b.status);
    }
  }

  /** The items of a report come by payment, those of one payment by the name of their status, and then by reference. */
  lemma ItemsInPlace(internal: seq<Internal>, external: seq<External>, at: int, r: Report)
    requires Reconciled(internal, external, at, r)
    ensures forall i, j :: 0 <= i < j < |r.items| ==> InPlace(r.items[i], r.items[j])
  {
    SettlementOrder.ItemsAreOrdered(internal, external, at, r);
    forall i, j | 0 <= i < j < |r.items| ensures InPlace(r.items[i], r.items[j]) {
      KeysInPlace(r.items[i], r.items[j]);
    }
  }
}
