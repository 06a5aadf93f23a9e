/**
 * The investor share ledger: for every (invoice, investor) pair an allocated and a
 * redeemed amount, and for every invoice the running totals of both. A missing
 * amount reads as 0. The ledger checks amounts against the investor's own balance
 * only; nothing bounds the allocations of an invoice by its face value.
 *
 * The contract keys an amount by `prefix + invoice + "|" + investor`; keying by the
 * pair is the same exactly when invoice ids hold no '|' (StorageKeys.AllocKeyInjective).
 */
module InvestorShare {
  import opened Common
  import Text

  /** Amounts of each investor, grouped by invoice. */
  type Amounts = map<Id, map<Id, int>>

  /** The amounts of the investors of one invoice. */
  function Row(m: Amounts, invoiceId: Id): map<Id, int>
  {
    GetOr(m, invoiceId, map[])
  }

  /** The amount of one investor in one invoice; 0 when never written (`_get_amount`). */
  function Amount(m: Amounts, invoiceId: Id, investor: Id): int
  {
    GetOr(Row(m, invoiceId), investor, 0)
  }

  /** The amounts after the amount of one pair is raised by `delta` and stored back. */
  function Add(m: Amounts, invoiceId: Id, investor: Id, delta: int): (r: Amounts)
    ensures Row(r, invoiceId) == Row(m, invoiceId)[investor := Amount(m, invoiceId, investor) + delta]
    ensures forall i :: i != invoiceId ==> Row(r, i) == Row(m, i)
    ensures forall i, a :: Amount(r, i, a) == Amount(m, i, a) + (if i == invoiceId && a == investor then delta else 0)
  {
    m[invoiceId := Row(m, invoiceId)[investor := Amount(m, invoiceId, investor) + delta]]
  }

  /** Raising one amount raises the sum over that invoice's investors by the same delta. */
  lemma AddSum(m: Amounts, invoiceId: Id, investor: Id, delta: int)
    ensures Sum(Row(Add(m, invoiceId, investor, delta), invoiceId)) == Sum(Row(m, invoiceId)) + delta
  {
    SumUpdate(Row(m, invoiceId), investor, Amount(m, invoiceId, investor) + delta);
  }

  /** Reads back the three numbers of a share record `alloc|redeemed|available`. */
  function ParseShareRecord(s: string): Option<(int, int, int)>
  {
    match Text.SplitOnce(s, '|')
    case None => None
    case Some(p) =>
      match Text.SplitOnce(p.1, '|')
      case None => None
      case Some(q) =>
        match (Text.ParseInt(p.0), Text.ParseInt(q.0), Text.ParseInt(q.1))
        case (Some(a), Some(r), Some(v)) => Some((a, r, v))
        case _ => None
  }

  /** The record `get_share` returns: allocated, redeemed and available, in decimal. */
  function ShareRecord(alloc: int, redeemed: int): (s: string)
    ensures s == Text.IntToString(alloc) + "|" + Text.IntToString(redeemed) + "|" + Text.IntToString(alloc - redeemed)
    ensures ParseShareRecord(s) == Some((alloc, redeemed, alloc - redeemed))
  {
    var a, r, v := Text.IntToString(alloc), Text.IntToString(redeemed), Text.IntToString(alloc - redeemed);
    Text.IntToStringHasNo(alloc, '|');
    Text.IntToStringHasNo(redeemed, '|');
    assert a + "|" + r + "|" + v == a + ['|'] + (r + ['|'] + v);
    Text.SplitOnceJoin(a, '|', r + ['|'] + v);
    Text.SplitOnceJoin(r, '|', v);
    Text.ParseIntToString(alloc);
    Text.ParseIntToString(redeemed);
    Text.ParseIntToString(alloc - redeemed);
    a + "|" + r + "|" + v
  }

  class Ledger {
    var allocations: Amounts
    var redemptions: Amounts
    var totalAllocations: map<Id, int>
    var totalRedemptions: map<Id, int>

    /**
     * Every investor has redeemed no more than is allocated to them, and each invoice's
     * totals are the sums of its investors' amounts.
     */
    ghost predicate Valid()
      reads this
    {
      && (forall i, a :: 0 <= Amount(redemptions, i, a) <= Amount(allocations, i, a))
      && (forall i :: GetOr(totalAllocations, i, 0) == Sum(Row(allocations, i)))
      && (forall i :: GetOr(totalRedemptions, i, 0) == Sum(Row(redemptions, i)))
    }

    /** Empty storage: every amount and every total reads as 0. */
    constructor ()
      ensures Valid()
      ensures forall i, a :: Allocation(i, a) == 0 && Redemption(i, a) == 0
      ensures forall i :: TotalAllocated(i) == 0 && TotalClaimed(i) == 0
    {
      allocations, redemptions := map[], map[];
      totalAllocations, totalRedemptions := map[], map[];
    }

    function Allocation(invoiceId: Id, investor: Id): int
      reads this
    {
      Amount(allocations, invoiceId, investor)
    }

    function Redemption(invoiceId: Id, investor: Id): int
      reads this
    {
      Amount(redemptions, invoiceId, investor)
    }

    /** `total_allocated`: on a consistent ledger, the sum of the invoice's allocations. */
    function TotalAllocated(invoiceId: Id): (t: int)
      reads this
      ensures Valid() ==> t == Sum(Row(allocations, invoiceId))
    {
      GetOr(totalAllocations, invoiceId, 0)
    }

    /** `total_claimed`: on a consistent ledger, the sum of the invoice's redemptions. */
    function TotalClaimed(invoiceId: Id): (t: int)
      reads this
      ensures Valid() ==> t == Sum(Row(redemptions, invoiceId))
    {
      GetOr(totalRedemptions, invoiceId, 0)
    }

    /** `get_share`: the record reads back as allocated, redeemed and their difference. */
    function GetShare(invoiceId: Id, investor: Id): (s: string)
      reads this
      ensures var a, r := Allocation(invoiceId, investor), Redemption(invoiceId, investor);
        && s == Text.IntToString(a) + "|" + Text.IntToString(r) + "|" + Text.IntToString(a - r)
        && ParseShareRecord(s) == Some((a, r, a - r))
    {
      ShareRecord(Allocation(invoiceId, investor), Redemption(invoiceId, investor))
    }

    /** `allocate`: a positive amount is added to the investor's allocation and the invoice's total. */
    method Allocate(invoiceId: Id, investor: Id, amount: int) returns (ok: bool)
      requires Valid()
      modifies this
      ensures Valid()
      ensures ok <==> amount > 0
      ensures ok ==> allocations == Add(old(allocations), invoiceId, investor, amount)
      ensures ok ==> totalAllocations == old(totalAllocations)[invoiceId := old(TotalAllocated(invoiceId)) + amount]
      ensures !ok ==> allocations == old(allocations) && totalAllocations == old(totalAllocations)
      ensures redemptions == old(redemptions) && totalRedemptions == old(totalRedemptions)
    {
      if amount <= 0 {
        return false;
      }
      AddSum(allocations, invoiceId, investor, amount);
      allocations := Add(allocations, invoiceId, investor, amount);
      totalAllocations := totalAllocations[invoiceId := GetOr(totalAllocations, invoiceId, 0) + amount];
      ok := true;
    }

    /**
     * `transfer`: moves a positive amount of allocation from one investor to another
     * when it does not exceed the sender's unredeemed balance; the totals stay as they are.
     */
    method Transfer(invoiceId: Id, fromInvestor: Id, toInvestor: Id, amount: int) returns (ok: bool)
      requires Valid()
      modifies this
      ensures Valid()
      ensures ok <==> 0 < amount <= old(Allocation(invoiceId, fromInvestor) - Redemption(invoiceId, fromInvestor))
      ensures ok ==> allocations == Add(Add(old(allocations), invoiceId, fromInvestor, -amount), invoiceId, toInvestor, amount)
      ensures !ok ==> allocations == old(allocations)
      ensures totalAllocations == old(totalAllocations)
      ensures redemptions == old(redemptions) && totalRedemptions == old(totalRedemptions)
    {
      if amount <= 0 {
        return false;
      }
      var fromAlloc := Amount(allocations, invoiceId, fromInvestor);
      var fromRedeemed := Amount(redemptions, invoiceId, fromInvestor);
      var available := fromAlloc - fromRedeemed;
      if available < amount {
        return false;
      }
      AddSum(allocations, invoiceId, fromInvestor, -amount);
      allocations := Add(allocations, invoiceId, fromInvestor, -amount);
      AddSum(allocations, invoiceId, toInvestor, amount);
      allocations := Add(allocations, invoiceId, toInvestor, amount);
      ok := true;
    }

    /**
     * `redeem`: a positive amount no larger than the unredeemed balance is added to the
     * investor's redeemed amount and the invoice's claimed total; allocations stay as they are.
     */
    method Redeem(invoiceId: Id, investor: Id, amount: int) returns (ok: bool)
      requires Valid()
      modifies this
      ensures Valid()
      ensures ok <==> 0 < amount <= old(Allocation(invoiceId, investor) - Redemption(invoiceId, investor))
      ensures ok ==> redemptions == Add(old(redemptions), invoiceId, investor, amount)
      ensures ok ==> totalRedemptions == old(totalRedemptions)[invoiceId := old(TotalClaimed(invoiceId)) + amount]
      ensures !ok ==> redemptions == old(redemptions) && totalRedemptions == old(totalRedemptions)
      ensures allocations == old(allocations) && totalAllocations == old(totalAllocations)
    {
      if amount <= 0 {
        return false;
      }
      var alloc := Amount(allocations, invoiceId, investor);
      var redeemedSoFar := Amount(redemptions, invoiceId, investor);
      var available := alloc - redeemedSoFar;
      if available < amount {
        return false;
      }
      AddSum(redemptions, invoiceId, investor, amount);
      redemptions := Add(redemptions, invoiceId, investor, amount);
      totalRedemptions := totalRedemptions[invoiceId := GetOr(totalRedemptions, invoiceId, 0) + amount];
      ok := true;
    }
  }

  /** On a consistent ledger an invoice's claimed total never exceeds its allocated total. */
  lemma ClaimedWithinAllocated(ledger: Ledger, invoiceId: Id)
    requires ledger.Valid()
    ensures 0 <= ledger.TotalClaimed(invoiceId) <= ledger.TotalAllocated(invoiceId)
  {
    var r, a := Row(ledger.redemptions, invoiceId), Row(ledger.allocations, invoiceId);
    assert forall k :: GetOr(r, k, 0) <= GetOr(a, k, 0) by {
      forall k ensures GetOr(r, k, 0) <= GetOr(a, k, 0) {
        assert Amount(ledger.redemptions, invoiceId, k) <= Amount(ledger.allocations, invoiceId, k);
      }
    }
    assert forall k :: k in a ==> a[k] >= 0 by {
      forall k | k in a ensures a[k] >= 0 {
        assert 0 <= Amount(ledger.redemptions, invoiceId, k) <= Amount(ledger.allocations, invoiceId, k);
      }
    }
    assert forall k :: k in r ==> r[k] >= 0 by {
      forall k | k in r ensures r[k] >= 0 {
        assert 0 <= Amount(ledger.redemptions, invoiceId, k);
      }
    }
    SumPointwiseLe(r, a);
    SumNonNegative(r);
  }
}
