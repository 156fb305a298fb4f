/** How a withdrawal unfolds over the ticks of its progress interval, and what the
    scan controls do when repeated. */
module Timeline {
  import opened Addresses
  import opened Engine

  /** `n` firings of the oldest live progress interval, or fewer if it ends. */
  function Ticks(s: State, n: nat, now: string): State
    decreases n
  {
    if n == 0 || |s.transfers| == 0 then s else Ticks(ProgressTick(s, 0, now), n - 1, now)
  }

  /** While the bar stays below 100, ticks only move the bar. */
  lemma {:induction false} QuietTicks(s: State, n: nat, now: string)
    requires |s.transfers| > 0 && s.withdrawProgress + ProgressStep * n <= ProgressFull
    ensures Ticks(s, n, now) == s.(withdrawProgress := s.withdrawProgress + ProgressStep * n)
    decreases n
  {
    if n > 0 {
      var u := ProgressTick(s, 0, now);
      assert u == s.(withdrawProgress := s.withdrawProgress + ProgressStep);
      QuietTicks(u, n - 1, now);
    }
  }

  /** With no interval left, ticking changes nothing. */
  lemma {:induction false} IdleTicks(s: State, n: nat, now: string)
    requires s.transfers == []
    ensures Ticks(s, n, now) == s
  {
  }

  /** An accepted withdrawal with no other in flight: ten ticks bring the bar from 0
      to 100 without touching the balance or the history; the eleventh tick commits
      the withdrawal (the balance drops by the amount, one record goes in front of
      the history, the interval ends); later ticks change nothing, so it commits
      exactly once. */
  lemma WithdrawalCommitsOnEleventhTick(s: State, wallet: string, amount: Cents, now: string)
    requires Accepts(s, wallet, Some(amount)) && s.transfers == []
    ensures var u := SubmitWithdraw(s, wallet, Some(amount));
            && u.withdrawProgress == 0
            && (forall n: nat :: n <= 10 ==>
                  && Ticks(u, n, now).totalFound == s.totalFound
                  && Ticks(u, n, now).withdrawHistory == s.withdrawHistory
                  && Ticks(u, n, now).withdrawProgress == ProgressStep * n)
            && var d := Ticks(u, 11, now);
               && d.totalFound == s.totalFound - amount
               && d.withdrawHistory == [Record(wallet, amount, now)] + s.withdrawHistory
               && d.transfers == [] && d.withdrawProgress == ProgressFull
               && d.withdrawStatus == NoStatus && d.successMsg == Some(amount)
               && (forall n: nat :: n >= 11 ==> Ticks(u, n, now) == d)
  {
    var u := SubmitWithdraw(s, wallet, Some(amount));
    forall n: nat | n <= 10
      ensures Ticks(u, n, now) == u.(withdrawProgress := ProgressStep * n)
    {
      QuietTicks(u, n, now);
    }
    var ten := Ticks(u, 10, now);
    var d := ProgressTick(ten, 0, now);
    assert Ticks(u, 11, now) == d by {
      SplitTicks(u, 10, 1, now);
    }
    forall n: nat | n >= 11 ensures Ticks(u, n, now) == d {
      SplitTicks(u, 11, n - 11, now);
      IdleTicks(d, n - 11, now);
    }
  }

  /** Ticking `a` then `b` times is ticking `a + b` times. */
  lemma {:induction false} SplitTicks(s: State, a: nat, b: nat, now: string)
    ensures Ticks(s, a + b, now) == Ticks(Ticks(s, a, now), b, now)
    decreases a
  {
    if a > 0 && |s.transfers| > 0 {
      SplitTicks(ProgressTick(s, 0, now), a - 1, b, now);
    } else if a > 0 {
      IdleTicks(s, b, now);
      IdleTicks(s, a + b, now);
    }
  }

  /** The commit does not check the balance again: a reset while a withdrawal is in
      flight zeroes the balance, and the commit then drives it below zero. */
  lemma ResetDuringWithdrawalOverdraws(s: State, wallet: string, amount: Cents, now: string)
    requires Accepts(s, wallet, Some(amount)) && s.transfers == [] && amount > 0
    ensures Ticks(ResetScan(SubmitWithdraw(s, wallet, Some(amount))), 11, now).totalFound
            == -amount < 0
  {
    var r := ResetScan(SubmitWithdraw(s, wallet, Some(amount)));
    QuietTicks(r, 10, now);
    SplitTicks(r, 10, 1, now);
  }

  /** Both guards check the balance at submit time only: the whole balance can be
      submitted twice, and both withdrawals commit. */
  lemma DoubleSubmitOverdraws(s: State, wallet: string, now: string)
    requires ValidAddress(wallet) && s.totalFound > 0 && s.transfers == []
    ensures var once := SubmitWithdraw(s, wallet, Some(s.totalFound));
            var twice := SubmitWithdraw(once, wallet, Some(s.totalFound));
            && twice.withdrawStatus == Processing && |twice.transfers| == 2
            && Ticks(twice, 12, now).totalFound == -s.totalFound
            && |Ticks(twice, 12, now).withdrawHistory| == |s.withdrawHistory| + 2
  {
    var once := SubmitWithdraw(s, wallet, Some(s.totalFound));
    var twice := SubmitWithdraw(once, wallet, Some(s.totalFound));
    QuietTicks(twice, 10, now);
    SplitTicks(twice, 10, 2, now);
    var ten := Ticks(twice, 10, now);
    assert |ProgressTick(ten, 0, now).transfers| == 1;
  }

  /** A discovery of 50.00 from a fresh session, a withdrawal of 30.00 that
      completes, and a second withdrawal of 25.00 that is refused because only
      20.00 is left. */
  lemma DiscoverThenWithdraw(wallet: string, addr: string, now: string)
    requires ValidAddress(wallet)
    ensures var found := ScanTick(StartScan(Initial), 0, addr, Some(5000));
            && found.totalFound == 5000 && found.foundCount == 1
            && var paid := Ticks(SubmitWithdraw(found, wallet, Some(3000)), 11, now);
               && paid.totalFound == 2000
               && paid.withdrawHistory == [Record(wallet, 3000, now)]
               && var refused := SubmitWithdraw(paid, wallet, Some(2500));
                  && refused.withdrawStatus == InvalidAmount
                  && refused.totalFound == 2000
                  && refused.withdrawHistory == paid.withdrawHistory
  {
    var found := ScanTick(StartScan(Initial), 0, addr, Some(5000));
    WithdrawalCommitsOnEleventhTick(found, wallet, 3000, now);
  }

  /** Stopping twice is stopping once; starting while started changes nothing more;
      resetting twice is resetting once. */
  lemma ScanControlsIdempotent(s: State)
    ensures StopScan(StopScan(s)) == StopScan(s)
    ensures StartScan(StartScan(s)) == StartScan(s)
    ensures ResetScan(ResetScan(s)) == ResetScan(s)
  {
  }
}
