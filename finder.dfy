/** The component itself: its state variables as fields of one object, and its
    handlers and timer callbacks as methods that update them in place. Each method
    is proved to move the object from one engine state to the next as the
    corresponding `Engine` function says, and to keep the engine invariant. */
module Finder {
  import opened Draws
  import opened Addresses
  import opened Engine
  import Runs

  class CryptoBalanceFinder {
    var isScanning: bool
    var scanned: int
    var addresses: seq<Entry>
    var foundCount: int
    var totalFound: Cents
    var alert: Alert
    var lastFound: Option<Cents>
    var withdrawHistory: seq<Record>
    var withdrawProgress: int
    var withdrawStatus: Status
    var successMsg: Option<Cents>
    /** The withdrawal-progress intervals that are still running. */
    var transfers: seq<Transfer>

    /** The engine state the fields hold. */
    function Snapshot(): State
      reads this
    {
      State(isScanning, scanned, addresses, foundCount, totalFound, alert, lastFound,
            withdrawHistory, withdrawProgress, withdrawStatus, successMsg, transfers)
    }

    ghost predicate Valid()
      reads this
    {
      Invariant(Snapshot())
    }

    /** The `useState` initial values. */
    constructor ()
      ensures Valid() && Snapshot() == Initial
    {
      isScanning, scanned, addresses, foundCount, totalFound := false, 0, [], 0, 0;
      alert, lastFound := NoAlert, None;
      withdrawHistory, withdrawProgress, withdrawStatus, successMsg := [], 0, NoStatus, None;
      transfers := [];
    }

    method StartScan()
      requires Valid()
      modifies this
      ensures Valid() && Snapshot() == Engine.StartScan(old(Snapshot()))
    {
      isScanning := true;
      alert := NoAlert;
    }

    method StopScan()
      modifies this
      ensures Snapshot() == Engine.StopScan(old(Snapshot()))
      ensures old(Valid()) ==> Valid()
    {
      isScanning := false;
    }

    method ResetScan()
      requires Valid()
      modifies this
      ensures Valid() && Snapshot() == Engine.ResetScan(old(Snapshot()))
    {
      isScanning := false;
      scanned := 0;
      addresses := [];
      foundCount := 0;
      totalFound := 0;
      alert := NoAlert;
    }

    method HandleFound(amount: Cents)
      modifies this
      ensures Snapshot() == Engine.HandleFound(old(Snapshot()), amount)
    {
      foundCount := foundCount + 1;
      totalFound := totalFound + amount;
      lastFound := Some(amount);
      alert := FoundAlert(amount);
    }

    /** One firing of the scan interval, given the random values it draws: one for
        the increment, 38 for the address digits and, on a find, one for the amount. */
    method Tick(incDraw: real, addrDraws: seq<real>, amountDraw: Option<real>)
      requires Valid() && isScanning
      requires 0.0 <= incDraw < 1.0
      requires |addrDraws| == 38 && forall i :: 0 <= i < |addrDraws| ==> 0.0 <= addrDraws[i] < 1.0
      requires amountDraw.Some? ==> 0.0 <= amountDraw.value < 1.0
      modifies this
      ensures Valid() && |addresses| > 0 && IsGenerated(addresses[0].addr)
      ensures forall i :: 2 <= i < 40 ==> addresses[0].addr[i] == GeneratorChars[Pick(addrDraws[i - 2], 16)]
      ensures addresses[0].amount
              == if amountDraw.Some? then Some(RandomAmount(amountDraw.value)) else None
      ensures Snapshot() == ScanTick(old(Snapshot()), Pick(incDraw, MaxIncrement),
                                     addresses[0].addr, addresses[0].amount)
    {
      ghost var before := Snapshot();
      var inc := Pick(incDraw, MaxIncrement);
      var next := Min(scanned + inc, Cap);
      scanned := next;
      if next >= Cap {
        StopScan();
      }
      var newAddr := GenerateAddress(addrDraws);
      var amount := if amountDraw.Some? then Some(RandomAmount(amountDraw.value)) else None;
      var newEntry := Entry(newAddr, amount);
      if amount.Some? {
        HandleFound(amount.value);
      }
      addresses := [newEntry] + addresses[..Min(FeedKept, |addresses|)];
      Runs.StepKeepsInvariant(before, Runs.Scan(inc, newAddr, amount));
    }

    /** `handleWithdraw`, with the two input fields as parameters; the amount field is
        a number input, so its text is either empty (None) or a number. */
    method SubmitWithdraw(wallet: string, amount: Option<Cents>)
      requires Valid()
      modifies this
      ensures Valid() && Snapshot() == Engine.SubmitWithdraw(old(Snapshot()), wallet, amount)
    {
      ghost var before := Snapshot();
      Runs.StepKeepsInvariant(before, Runs.Withdraw(wallet, amount));
      if !ValidAddress(wallet) {
        withdrawStatus := InvalidAddress;
        return;
      }
      if amount.None? || amount.value > totalFound {
        withdrawStatus := InvalidAmount;
        return;
      }
      withdrawProgress := 0;
      withdrawStatus := Processing;
      transfers := transfers + [Transfer(wallet, amount.value)];
    }

    /** One firing of live progress interval `k`; `now` is the locale text of the
        current time. */
    method ProgressTick(k: nat, now: string)
      requires Valid() && k < |transfers|
      modifies this
      ensures Valid() && Snapshot() == Engine.ProgressTick(old(Snapshot()), k, now)
    {
      ghost var before := Snapshot();
      Runs.StepKeepsInvariant(before, Runs.Progress(k, now));
      var p := withdrawProgress;
      if p >= ProgressFull {
        var x := transfers[k];
        transfers := transfers[..k] + transfers[k + 1..];
        totalFound := totalFound - x.amount;
        withdrawHistory := [Record(x.wallet, x.amount, now)] + withdrawHistory;
        withdrawStatus := NoStatus;
        successMsg := Some(x.amount);
      }
      withdrawProgress := Min(p + ProgressStep, ProgressFull);
    }
  }
}
