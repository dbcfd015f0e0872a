/** `useScanLimit` of `app/hooks/useScanLimit.ts`: the number of free scans a guest
    has left, counted in the browser's local storage. */
module UseScanLimit {
  import opened Wrappers
  import opened Arith

  const GuestScanLimit := 2

  /** `remainingScans`: unlimited (-1) when signed in, else what is left of the
      guest allowance, never below zero. */
  function RemainingScans(signedIn: bool, count: int): (r: int)
    ensures signedIn ==> r == -1
    ensures !signedIn && count >= 0 ==> 0 <= r <= GuestScanLimit
    ensures !signedIn && count <= GuestScanLimit ==> r == GuestScanLimit - count
    ensures !signedIn && count >= GuestScanLimit ==> r == 0
  {
    if signedIn then -1 else Max(0, GuestScanLimit - count)
  }

  /** `hasExceededLimit`. */
  function HasExceededLimit(signedIn: bool, count: int): (r: bool)
    ensures signedIn ==> !r
    ensures r <==> !signedIn && count >= GuestScanLimit
  {
    !signedIn && count >= GuestScanLimit
  }

  /** For a guest, the limit is exceeded exactly when no scan remains. */
  lemma ExceededIffNoneRemaining(count: int)
    ensures HasExceededLimit(false, count) <==> RemainingScans(false, count) == 0
  {
  }

  /** Each counted scan uses up one remaining scan until none are left. */
  lemma IncrementUsesOneScan(count: int)
    requires count >= 0
    ensures RemainingScans(false, count + 1) == Max(0, RemainingScans(false, count) - 1)
  {
  }

  class ScanLimit {
    /** Whether the user is signed in. */
    var signedIn: bool
    /** `guestScanCount` state. */
    var guestScanCount: int
    /** The `guest_scan_count` entry of local storage, as the number written there. */
    var saved: Option<int>

    ghost predicate Valid()
      reads this
    {
      guestScanCount >= 0 && (saved.Some? ==> saved.value >= 0)
    }

    /** The hook's first render: the count starts at 0 before the stored value is
        loaded. */
    constructor (signedIn: bool, saved: Option<int>)
      requires saved.Some? ==> saved.value >= 0
      ensures Valid()
      ensures this.signedIn == signedIn && this.saved == saved && guestScanCount == 0
    {
      this.signedIn := signedIn;
      this.saved := saved;
      guestScanCount := 0;
    }

    /** The mount effect: a guest's count is read from storage, missing meaning 0. */
    method Load()
      requires Valid()
      modifies this
      ensures Valid()
      ensures signedIn == old(signedIn) && saved == old(saved)
      ensures !signedIn ==> guestScanCount == saved.GetOr(0)
      ensures signedIn ==> guestScanCount == old(guestScanCount)
    {
      if !signedIn {
        guestScanCount := saved.GetOr(0);
      }
    }

    function Remaining(): (r: int)
      reads this
      ensures r == RemainingScans(signedIn, guestScanCount)
    {
      RemainingScans(signedIn, guestScanCount)
    }

    function Exceeded(): (r: bool)
      reads this
      ensures r == HasExceededLimit(signedIn, guestScanCount)
    {
      HasExceededLimit(signedIn, guestScanCount)
    }

    /** A guest's count goes up by one and is stored; a signed-in user's state is
        untouched and 0 is returned. */
    method IncrementScanCount() returns (newCount: int)
      requires Valid()
      modifies this
      ensures Valid()
      ensures signedIn == old(signedIn)
      ensures !signedIn ==> guestScanCount == old(guestScanCount) + 1 && newCount == guestScanCount
                            && saved == Some(newCount)
      ensures !signedIn ==> Remaining() == Max(0, old(Remaining()) - 1)
      ensures signedIn ==> newCount == 0 && guestScanCount == old(guestScanCount) && saved == old(saved)
    {
      if !signedIn {
        newCount := guestScanCount + 1;
        guestScanCount := newCount;
        saved := Some(newCount);
        IncrementUsesOneScan(old(guestScanCount));
        return;
      }
      return 0;
    }

    /** A guest's count returns to 0 and the stored entry is removed. */
    method ResetScanCount()
      requires Valid()
      modifies this
      ensures Valid()
      ensures signedIn == old(signedIn)
      ensures !signedIn ==> guestScanCount == 0 && saved.None? && Remaining() == GuestScanLimit
      ensures signedIn ==> guestScanCount == old(guestScanCount) && saved == old(saved)
    {
      if !signedIn {
        guestScanCount := 0;
        saved := None;
      }
    }
  }
}
