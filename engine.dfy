/** The state engine of the crypto-balance-finder component, as a value and its
    transitions. `State` holds the component's state variables that the engine
    reads or writes; each operation of the component is a function from the old
    state to the new one. Randomness and timers are parameters: a scan tick
    receives its increment, its generated address and its optional find, and a
    withdrawal-progress tick names the live interval that fired. Money is in
    integer cents, so rounding a sum or a difference to two decimals is exact. */
module Engine {
  import opened Draws
  import opened Addresses

  datatype Option<T> = None | Some(value: T)

  /** An amount of money in cents. */
  type Cents = int

  /** The ceiling of the scan counter. */
  const Cap: int := 1000000
  /** A tick's increment is `Math.floor(Math.random() * 800)`. */
  const MaxIncrement: nat := 800
  /** How many earlier feed entries a tick keeps behind the new one. */
  const FeedKept: nat := 25
  /** Percentage points a withdrawal advances per progress tick. */
  const ProgressStep: int := 10
  const ProgressFull: int := 100

  /** One line of the scan feed: a generated address, with an amount when it was a find. */
  datatype Entry = Entry(addr: string, amount: Option<Cents>)

  /** One completed withdrawal. The time is the locale text of the commit instant. */
  datatype Record = Record(wallet: string, amount: Cents, time: string)

  /** The transient banner: nothing, or the amount just found. */
  datatype Alert = NoAlert | FoundAlert(amount: Cents)

  /** The withdrawal dialog's status line. */
  datatype Status = NoStatus | InvalidAddress | InvalidAmount | Processing

  /** A live withdrawal-progress interval, with the wallet and amount it captured
      when it was submitted. */
  datatype Transfer = Transfer(wallet: string, amount: Cents)

  datatype State = State(
    isScanning: bool,
    scanned: int,
    addresses: seq<Entry>,
    foundCount: int,
    totalFound: Cents,
    alert: Alert,
    lastFound: Option<Cents>,
    withdrawHistory: seq<Record>,
    withdrawProgress: int,
    withdrawStatus: Status,
    successMsg: Option<Cents>,
    transfers: seq<Transfer>)

  /** The values the component's state variables start with. */
  const Initial: State := State(false, 0, [], 0, 0, NoAlert, None, [], 0, NoStatus, None, [])

  function Min(a: int, b: int): int {
    if a < b then a else b
  }

  /** What the engine keeps true of every state it reaches. */
  predicate Invariant(s: State) {
    && 0 <= s.scanned <= Cap
    && s.foundCount >= 0
    && |s.addresses| <= FeedKept + 1
    && (forall e :: e in s.addresses ==>
          IsGenerated(e.addr) && (e.amount.Some? ==> IsDrawnAmount(e.amount.value)))
    && (s.lastFound.Some? ==> IsDrawnAmount(s.lastFound.value))
    && 0 <= s.withdrawProgress <= ProgressFull && s.withdrawProgress % ProgressStep == 0
    && (forall x :: x in s.transfers ==> ValidAddress(x.wallet))
    && (forall r :: r in s.withdrawHistory ==> ValidAddress(r.wallet))
  }

  // ---------------------------------------------------------------- scanning

  /** The `setScanned` updater: the counter advances by `inc` but stops at the cap. */
  function NextScanned(prev: int, inc: int): (next: int)
    requires 0 <= inc < MaxIncrement
    ensures next <= Cap
    ensures prev <= Cap ==> prev <= next
    ensures next == prev + inc || next == Cap
    ensures next == Cap <==> prev + inc >= Cap
  {
    if prev + inc < Cap then prev + inc else Cap
  }

  /** The `setAddresses` updater: the new entry in front of the first (at most 25)
      previous entries, in their order. */
  function PushEntry(feed: seq<Entry>, e: Entry): (r: seq<Entry>)
    ensures |r| == 1 + Min(FeedKept, |feed|) && |r| <= FeedKept + 1
    ensures r[0] == e
    ensures forall i :: 1 <= i < |r| ==> r[i] == feed[i - 1]
    ensures forall x :: x in r ==> x == e || x in feed
  {
    [e] + feed[..Min(FeedKept, |feed|)]
  }

  /** `startScan`: scanning on and the banner cleared; nothing else changes. */
  function StartScan(s: State): (t: State)
    ensures t.isScanning && t.alert == NoAlert
    ensures t.(isScanning := s.isScanning, alert := s.alert) == s
  {
    s.(isScanning := true, alert := NoAlert)
  }

  /** `stopScan`: scanning off; nothing else changes. */
  function StopScan(s: State): (t: State)
    ensures !t.isScanning
    ensures t.(isScanning := s.isScanning) == s
  {
    s.(isScanning := false)
  }

  /** `resetScan`: every scan variable, and the balance, back to its initial value.
      The withdrawal variables, live withdrawal intervals and the last find stay. */
  function ResetScan(s: State): (t: State)
    ensures t.(lastFound := None, withdrawHistory := [], withdrawProgress := 0,
               withdrawStatus := NoStatus, successMsg := None, transfers := []) == Initial
    ensures t.lastFound == s.lastFound && t.withdrawHistory == s.withdrawHistory
    ensures t.withdrawProgress == s.withdrawProgress && t.withdrawStatus == s.withdrawStatus
    ensures t.successMsg == s.successMsg && t.transfers == s.transfers
  {
    s.(isScanning := false, scanned := 0, addresses := [], foundCount := 0,
       totalFound := 0, alert := NoAlert)
  }

  /** `handleFound`: count the find, add it to the balance and raise the banner;
      nothing else changes. */
  function HandleFound(s: State, amount: Cents): (t: State)
    ensures t.foundCount == s.foundCount + 1
    ensures t.totalFound - s.totalFound == amount
    ensures t.lastFound == Some(amount) && t.alert == FoundAlert(amount)
    ensures t.(foundCount := s.foundCount, totalFound := s.totalFound,
               lastFound := s.lastFound, alert := s.alert) == s
  {
    s.(foundCount := s.foundCount + 1, totalFound := s.totalFound + amount,
       lastFound := Some(amount), alert := FoundAlert(amount))
  }

  /** One firing of the scan interval (it only fires while scanning): the counter
      advances and scanning stops when it reaches the cap, the new entry goes in
      front of the feed, and a find is credited. The withdrawal side is untouched. */
  function ScanTick(s: State, inc: int, addr: string, found: Option<Cents>): (t: State)
    requires s.isScanning
    requires 0 <= inc < MaxIncrement
    ensures t.scanned == NextScanned(s.scanned, inc)
    ensures t.isScanning <==> t.scanned < Cap
    ensures t.addresses == PushEntry(s.addresses, Entry(addr, found))
    ensures found.None? ==> t.foundCount == s.foundCount && t.totalFound == s.totalFound
                            && t.alert == s.alert && t.lastFound == s.lastFound
    ensures found.Some? ==> t.foundCount == s.foundCount + 1
                            && t.totalFound == s.totalFound + found.value
                            && t.alert == FoundAlert(found.value) && t.lastFound == found
    ensures t.withdrawHistory == s.withdrawHistory && t.withdrawProgress == s.withdrawProgress
    ensures t.withdrawStatus == s.withdrawStatus && t.successMsg == s.successMsg
    ensures t.transfers == s.transfers
  {
    var counted := s.(scanned := NextScanned(s.scanned, inc));
    var stopped := if counted.scanned >= Cap then StopScan(counted) else counted;
    var credited := if found.Some? then HandleFound(stopped, found.value) else stopped;
    credited.(addresses := PushEntry(s.addresses, Entry(addr, found)))
  }

  // ---------------------------------------------------------------- withdrawal

  /** The two guards of `handleWithdraw`: a valid address, then an amount that is
      present and not above the balance. Zero and negative amounts pass. */
  predicate Accepts(s: State, wallet: string, amount: Option<Cents>) {
    ValidAddress(wallet) && amount.Some? && amount.value <= s.totalFound
  }

  /** `handleWithdraw`: a rejected request only sets the status line; an accepted one
      restarts the progress bar and starts a new progress interval. Submitting
      never moves money. */
  function SubmitWithdraw(s: State, wallet: string, amount: Option<Cents>): (t: State)
    ensures t.totalFound == s.totalFound && t.withdrawHistory == s.withdrawHistory
    ensures !ValidAddress(wallet) ==> t == s.(withdrawStatus := InvalidAddress)
    ensures ValidAddress(wallet) && !Accepts(s, wallet, amount) ==> t == s.(withdrawStatus := InvalidAmount)
    ensures Accepts(s, wallet, amount) <==> t.withdrawStatus == Processing
    ensures Accepts(s, wallet, amount) ==>
              t == s.(withdrawProgress := 0, withdrawStatus := Processing,
                      transfers := s.transfers + [Transfer(wallet, amount.value)])
  {
    if !ValidAddress(wallet) then s.(withdrawStatus := InvalidAddress)
    else if amount.None? || amount.value > s.totalFound then s.(withdrawStatus := InvalidAmount)
    else s.(withdrawProgress := 0, withdrawStatus := Processing,
            transfers := s.transfers + [Transfer(wallet, amount.value)])
  }

  /** The commit of a withdrawal: debit the captured amount (the balance is not
      checked again), record it in front of the history, clear the status line and
      show the success message. */
  function Commit(s: State, x: Transfer, now: string): (t: State)
    ensures s.totalFound - t.totalFound == x.amount
    ensures |t.withdrawHistory| == |s.withdrawHistory| + 1
    ensures t.withdrawHistory[0] == Record(x.wallet, x.amount, now)
    ensures t.withdrawHistory[1..] == s.withdrawHistory
    ensures t.withdrawStatus == NoStatus && t.successMsg == Some(x.amount)
    ensures t.(totalFound := s.totalFound, withdrawHistory := s.withdrawHistory,
               withdrawStatus := s.withdrawStatus, successMsg := s.successMsg) == s
  {
    s.(totalFound := s.totalFound - x.amount,
       withdrawHistory := [Record(x.wallet, x.amount, now)] + s.withdrawHistory,
       withdrawStatus := NoStatus,
       successMsg := Some(x.amount))
  }

  /** One firing of live progress interval `k`. A tick that sees the bar at 100 or
      more commits that interval's withdrawal and ends the interval; every tick then
      moves the bar 10 points up, to at most 100. */
  function ProgressTick(s: State, k: nat, now: string): (t: State)
    requires k < |s.transfers|
    ensures t.withdrawProgress == Min(s.withdrawProgress + ProgressStep, ProgressFull)
    ensures s.withdrawProgress < ProgressFull ==> t == s.(withdrawProgress := t.withdrawProgress)
    ensures s.withdrawProgress >= ProgressFull ==>
              && t.totalFound == s.totalFound - s.transfers[k].amount
              && t.withdrawHistory == [Record(s.transfers[k].wallet, s.transfers[k].amount, now)]
                                      + s.withdrawHistory
              && t.transfers == s.transfers[..k] + s.transfers[k + 1..]
              && t.withdrawStatus == NoStatus && t.successMsg == Some(s.transfers[k].amount)
    ensures t.isScanning == s.isScanning && t.scanned == s.scanned && t.addresses == s.addresses
    ensures t.foundCount == s.foundCount && t.alert == s.alert && t.lastFound == s.lastFound
  {
    var p := s.withdrawProgress;
    var committed :=
      if p >= ProgressFull then
        Commit(s, s.transfers[k], now).(transfers := s.transfers[..k] + s.transfers[k + 1..])
      else s;
    committed.(withdrawProgress := Min(p + ProgressStep, ProgressFull))
  }
}
