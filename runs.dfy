/** Sessions of the engine: a sequence of user actions and timer firings applied
    to a state, and what holds across any such sequence. */
module Runs {
  import opened Draws
  import opened Addresses
  import opened Engine

  /** Everything that can happen to the component: a button, or a timer firing
      with the random values it drew. */
  datatype Event =
    | Start
    | Stop
    | Reset
    | Scan(inc: int, addr: string, found: Option<Cents>)
    | Withdraw(wallet: string, amount: Option<Cents>)
    | Progress(timer: nat, now: string)

  /** When an event can happen: the scan interval only fires while scanning and
      draws its values as the component does; a progress event names a live interval. */
  predicate Enabled(s: State, e: Event) {
    match e
    case Scan(inc, addr, found) =>
      s.isScanning && 0 <= inc < MaxIncrement && IsGenerated(addr)
      && (found.Some? ==> IsDrawnAmount(found.value))
    case Progress(k, _) => k < |s.transfers|
    case _ => true
  }

  function Step(s: State, e: Event): State
    requires Enabled(s, e)
  {
    match e
    case Start => StartScan(s)
    case Stop => StopScan(s)
    case Reset => ResetScan(s)
    case Scan(inc, addr, found) => ScanTick(s, inc, addr, found)
    case Withdraw(wallet, amount) => SubmitWithdraw(s, wallet, amount)
    case Progress(k, now) => ProgressTick(s, k, now)
  }

  /** The state after the events, or None when one of them cannot happen. */
  function Run(s: State, es: seq<Event>): Option<State>
    decreases |es|
  {
    if es == [] then Some(s)
    else if Enabled(s, es[0]) then Run(Step(s, es[0]), es[1..])
    else None
  }

  /** Amounts credited by the finds among the events. */
  function Credited(es: seq<Event>): int
    decreases |es|
  {
    if es == [] then 0
    else (if es[0].Scan? && es[0].found.Some? then es[0].found.value else 0) + Credited(es[1..])
  }

  /** Number of finds among the events. */
  function Discoveries(es: seq<Event>): nat
    decreases |es|
  {
    if es == [] then 0
    else (if es[0].Scan? && es[0].found.Some? then 1 else 0) + Discoveries(es[1..])
  }

  /** The total of a withdrawal history. */
  function Withdrawn(h: seq<Record>): int
    decreases |h|
  {
    if h == [] then 0 else h[0].amount + Withdrawn(h[1..])
  }

  lemma InitialInvariant()
    ensures Invariant(Initial)
  {
  }

  /** Every event keeps the invariant. */
  lemma StepKeepsInvariant(s: State, e: Event)
    requires Invariant(s) && Enabled(s, e)
    ensures Invariant(Step(s, e))
  {
    match e
    case Scan(inc, addr, found) =>
      var t := ScanTick(s, inc, addr, found);
      forall x | x in t.addresses
        ensures IsGenerated(x.addr) && (x.amount.Some? ==> IsDrawnAmount(x.amount.value))
      {
        assert x == Entry(addr, found) || x in s.addresses;
      }
    case Withdraw(wallet, amount) =>
      var t := SubmitWithdraw(s, wallet, amount);
      forall x | x in t.transfers ensures ValidAddress(x.wallet) {
        assert x in s.transfers || x == Transfer(wallet, amount.value);
      }
    case Progress(k, now) =>
      var t := ProgressTick(s, k, now);
      if s.withdrawProgress >= ProgressFull {
        assert s.transfers[k] in s.transfers;
        forall x | x in t.transfers ensures x in s.transfers {
          assert x in s.transfers[..k] || x in s.transfers[k + 1..];
        }
        forall r | r in t.withdrawHistory ensures ValidAddress(r.wallet) {
          assert r == t.withdrawHistory[0] || r in s.withdrawHistory;
        }
      }
    case _ =>
  }

  /** Every state reachable from an invariant state keeps the invariant. */
  lemma {:induction false} RunKeepsInvariant(s: State, es: seq<Event>, t: State)
    requires Invariant(s) && Run(s, es) == Some(t)
    ensures Invariant(t)
    decreases |es|
  {
    if es != [] {
      StepKeepsInvariant(s, es[0]);
      RunKeepsInvariant(Step(s, es[0]), es[1..], t);
    }
  }

  /** Until a reset, the scan counter never goes down and never passes the cap. */
  lemma {:induction false} ScannedNeverDecreases(s: State, es: seq<Event>, t: State)
    requires s.scanned <= Cap && Run(s, es) == Some(t) && Reset !in es
    ensures s.scanned <= t.scanned <= Cap
    decreases |es|
  {
    if es != [] {
      assert es[0] != Reset && Reset !in es[1..];
      ScannedNeverDecreases(Step(s, es[0]), es[1..], t);
    }
  }

  /** Once scanning has stopped (by the cap or by the user) nothing advances the
      scan until an explicit start: no tick fires, so the counter and the feed
      stay as they are. */
  lemma {:induction false} StoppedStaysStopped(s: State, es: seq<Event>, t: State)
    requires !s.isScanning && Run(s, es) == Some(t) && Start !in es
    ensures !t.isScanning
    ensures Reset !in es ==> t.scanned == s.scanned && t.addresses == s.addresses
    decreases |es|
  {
    if es != [] {
      assert es[0] != Start && Start !in es[1..];
      assert Reset !in es ==> es[0] != Reset && Reset !in es[1..];
      StoppedStaysStopped(Step(s, es[0]), es[1..], t);
    }
  }

  /** Until a reset, each find raises the find counter by one, and every cent found
      is either still in the balance or recorded in the withdrawal history. */
  lemma {:induction false} LedgerBalances(s: State, es: seq<Event>, t: State)
    requires Run(s, es) == Some(t) && Reset !in es
    ensures t.foundCount == s.foundCount + Discoveries(es)
    ensures t.totalFound + Withdrawn(t.withdrawHistory)
            == s.totalFound + Withdrawn(s.withdrawHistory) + Credited(es)
    decreases |es|
  {
    if es != [] {
      var u := Step(s, es[0]);
      assert es[0] != Reset && Reset !in es[1..];
      if es[0].Progress? && s.withdrawProgress >= ProgressFull {
        var x := s.transfers[es[0].timer];
        assert u.withdrawHistory[1..] == s.withdrawHistory;
        assert Withdrawn(u.withdrawHistory) == x.amount + Withdrawn(s.withdrawHistory);
      }
      LedgerBalances(u, es[1..], t);
    }
  }
}
