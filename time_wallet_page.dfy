/**
 * The demo of src/pages/TimeWalletPage.tsx: a time balance counted down one
 * minute per tick and clamped at zero, the colour tiers of the balance, and
 * the Over/Limit/Good status of each app's usage.
 *
 * The interval and the ten-second reset are timers; a tick and the reset are
 * modelled as operations, and `RunTicks` stands for the interval firing a
 * given number of times.
 */
module TimeWalletPage {
  const START_BALANCE := 120

  /** One interval tick: a used-up balance is held at zero, any other loses a minute. */
  function Tick(prev: int): (next: int)
    ensures next >= 0
    ensures prev > 0 ==> next == prev - 1
    ensures prev <= 0 ==> next == 0
  {
    if prev <= 0 then 0 else prev - 1
  }

  /** The balance after `k` ticks from `start`. */
  function BalanceAfter(start: int, k: nat): (balance: int)
    ensures k > 0 ==> balance >= 0
    ensures balance <= if start > 0 then start else if k == 0 then start else 0
  {
    if k == 0 then start else Tick(BalanceAfter(start, k - 1))
  }

  /** From a non-negative start, `k` ticks take off `k` minutes until the balance reaches zero, where it stays. */
  lemma {:induction false} Countdown(start: nat, k: nat)
    ensures BalanceAfter(start, k) == if k <= start then start - k else 0
  {
    if k > 0 {
      Countdown(start, k - 1);
    }
  }

  /** From the initial 120 minutes, 120 ticks drain the balance, and it stays at zero after that. */
  lemma DemoCountdown(k: nat)
    ensures k <= START_BALANCE ==> BalanceAfter(START_BALANCE, k) == START_BALANCE - k
    ensures k >= START_BALANCE ==> BalanceAfter(START_BALANCE, k) == 0
  {
    Countdown(START_BALANCE, k);
  }

  datatype Tier = Critical | Low | Healthy

  /** The balance tier: below 30, below 60, or the rest. */
  function BalanceTier(balance: int): (tier: Tier)
    ensures tier == Critical <==> balance < 30
    ensures tier == Low <==> 30 <= balance < 60
    ensures tier == Healthy <==> balance >= 60
  {
    if balance < 30 then Critical else if balance < 60 then Low else Healthy
  }

  /** The colour of the balance figure. */
  function BalanceTextClass(balance: int): (cls: string)
    ensures BalanceTier(balance) == Critical ==> cls == "text-red-500"
    ensures BalanceTier(balance) == Low ==> cls == "text-orange-500"
    ensures BalanceTier(balance) == Healthy ==> cls == "text-humanbo-black"
  {
    if balance < 30 then "text-red-500" else if balance < 60 then "text-orange-500" else "text-humanbo-black"
  }

  /** The colour of the balance bar. */
  function BalanceBarClass(balance: int): (cls: string)
    ensures BalanceTier(balance) == Critical ==> cls == "bg-red-500"
    ensures BalanceTier(balance) == Low ==> cls == "bg-orange-500"
    ensures BalanceTier(balance) == Healthy ==> cls == "bg-humanbo-blue"
  {
    if balance < 30 then "bg-red-500" else if balance < 60 then "bg-orange-500" else "bg-humanbo-blue"
  }

  /** A countdown never moves the balance to a healthier tier. */
  lemma TickNeverImprovesTier(balance: int)
    ensures BalanceTier(balance) == Critical ==> BalanceTier(Tick(balance)) == Critical
    ensures BalanceTier(balance) == Low ==> BalanceTier(Tick(balance)) != Healthy
  {
  }

  datatype App = App(name: string, timeSpent: int, limit: int)

  /** The four apps of the demo, with minutes spent and their limits. */
  function Apps(): (apps: seq<App>)
    ensures |apps| == 4
  {
    [ App("Instagram", 45, 30), App("TikTok", 25, 20), App("Twitter", 15, 15), App("YouTube", 35, 60) ]
  }

  datatype Status = Over | AtLimit | Good

  /** An app's badge: over its limit, exactly at it, or under it. */
  function AppStatus(app: App): (status: Status)
    ensures status == Over <==> app.timeSpent > app.limit
    ensures status == AtLimit <==> app.timeSpent == app.limit
    ensures status == Good <==> app.timeSpent < app.limit
  {
    if app.timeSpent > app.limit then Over else if app.timeSpent == app.limit then AtLimit else Good
  }

  /** The badge text. */
  function StatusText(status: Status): (text: string)
    ensures text in {"Over", "Limit", "Good"}
  {
    match status
    case Over => "Over"
    case AtLimit => "Limit"
    case Good => "Good"
  }

  /** Different statuses read differently, so the badge text tells the status. */
  lemma StatusTextDistinct(a: Status, b: Status)
    requires StatusText(a) == StatusText(b)
    ensures a == b
  {
  }

  /** The demo data shows Over, Over, Limit and Good. */
  lemma DemoStatuses()
    ensures AppStatus(Apps()[0]) == Over && AppStatus(Apps()[1]) == Over
    ensures AppStatus(Apps()[2]) == AtLimit && AppStatus(Apps()[3]) == Good
  {
  }

  /** The page's state: the balance and whether the demo is running. */
  class TimeWallet {
    var timeBalance: int
    var isDemo: bool

    constructor()
      ensures timeBalance == START_BALANCE && !isDemo
    {
      timeBalance := START_BALANCE;
      isDemo := false;
    }

    /** `startDemo`'s first step: the demo is on. */
    method StartDemo()
      modifies this
      ensures isDemo && timeBalance == old(timeBalance)
    {
      isDemo := true;
    }

    /** One firing of the interval; `stop` says it clears itself, which it does once the balance is used up. */
    method TickOnce() returns (stop: bool)
      modifies this
      ensures timeBalance == Tick(old(timeBalance))
      ensures stop <==> old(timeBalance) <= 0
      ensures isDemo == old(isDemo)
    {
      stop := timeBalance <= 0;
      if stop {
        timeBalance := 0;
      } else {
        timeBalance := timeBalance - 1;
      }
    }

    /** The interval firing `k` times. */
    method RunTicks(k: nat)
      modifies this
      ensures timeBalance == BalanceAfter(old(timeBalance), k)
      ensures isDemo == old(isDemo)
    {
      var i := 0;
      while i < k
        invariant 0 <= i <= k
        invariant timeBalance == BalanceAfter(old(timeBalance), i)
        invariant isDemo == old(isDemo)
      {
        var _ := TickOnce();
        i := i + 1;
      }
    }

    /** The ten-second timeout: the demo ends and the balance is back at 120. */
    method EndDemo()
      modifies this
      ensures !isDemo && timeBalance == START_BALANCE
    {
      isDemo := false;
      timeBalance := START_BALANCE;
    }
  }
}
