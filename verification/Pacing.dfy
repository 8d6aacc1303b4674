/** Join pacing: a minimum interval between two joins on one account. */
module Pacing {
  import opened Schema

  class AccountPacer {
    const interval: real
    // Account to the earliest clock reading at which its next join may start.
    var nextAllowed: map<AccountId, real>

    constructor (interval: real)
      ensures this.interval == interval && nextAllowed == map[]
    {
      this.interval := interval;
      nextAllowed := map[];
    }

    predicate Enabled() {
      interval > 0.0
    }

    /** Zero means the slot is taken and the next one moved on by the interval; a positive
        result is the time left to wait, and nothing changes. */
    method TryAcquire(account: AccountId, now: real) returns (wait: real)
      modifies this
      ensures wait == Wait(interval, old(nextAllowed), account, now)
      ensures nextAllowed == Acquire(interval, old(nextAllowed), account, now)
    {
      if interval <= 0.0 {
        return 0.0;
      }
      var earliest := if account in nextAllowed then nextAllowed[account] else 0.0;
      if now >= earliest {
        nextAllowed := nextAllowed[account := now + interval];
        return 0.0;
      }
      return earliest - now;
    }
  }

  function Earliest(slots: map<AccountId, real>, account: AccountId): real {
    if account in slots then slots[account] else 0.0
  }

  predicate SlotOpen(interval: real, slots: map<AccountId, real>, account: AccountId, now: real) {
    interval <= 0.0 || now >= Earliest(slots, account)
  }

  function Wait(interval: real, slots: map<AccountId, real>, account: AccountId, now: real): (w: real)
    ensures w > 0.0 <==> !SlotOpen(interval, slots, account, now)
    ensures w >= 0.0
  {
    if SlotOpen(interval, slots, account, now) then 0.0 else Earliest(slots, account) - now
  }

  function Acquire(interval: real, slots: map<AccountId, real>, account: AccountId, now: real): map<AccountId, real> {
    if interval > 0.0 && SlotOpen(interval, slots, account, now) then slots[account := now + interval] else slots
  }

  /** A refusal names the first instant the slot is open: not before `now + wait`, and then. */
  lemma WaitIsExact(interval: real, slots: map<AccountId, real>, account: AccountId, now: real, later: real)
    requires Wait(interval, slots, account, now) > 0.0
    ensures Acquire(interval, slots, account, now) == slots
    ensures SlotOpen(interval, slots, account, later) <==> later >= now + Wait(interval, slots, account, now)
  {
  }

  // ----- any sequence of calls -----

  datatype Call = Call(account: AccountId, at: real)

  function SlotsAfter(interval: real, calls: seq<Call>): map<AccountId, real> {
    if calls == [] then map[]
    else
      var last := calls[|calls| - 1];
      Acquire(interval, SlotsAfter(interval, calls[..|calls| - 1]), last.account, last.at)
  }

  /** The instants at which calls for the account were granted, in order. */
  function Grants(interval: real, calls: seq<Call>, account: AccountId): seq<real> {
    if calls == [] then []
    else
      var last, before := calls[|calls| - 1], calls[..|calls| - 1];
      Grants(interval, before, account)
      + if last.account == account && SlotOpen(interval, SlotsAfter(interval, before), account, last.at)
        then [last.at] else []
  }

  ghost predicate Spaced(grants: seq<real>, interval: real) {
    forall i, j :: 0 <= i && j == i + 1 < |grants| ==> grants[j] - grants[i] >= interval
  }

  lemma {:induction false} SlotFollowsLastGrant(interval: real, calls: seq<Call>, account: AccountId)
    requires interval > 0.0
    ensures var g := Grants(interval, calls, account);
      g != [] ==> Earliest(SlotsAfter(interval, calls), account) == g[|g| - 1] + interval
    ensures Grants(interval, calls, account) == [] ==> account !in SlotsAfter(interval, calls)
  {
    if calls != [] {
      SlotFollowsLastGrant(interval, calls[..|calls| - 1], account);
    }
  }

  /** Two consecutive grants on one account are at least the interval apart, whatever calls
      for whatever accounts come between them. */
  lemma {:induction false} GrantsAreSpaced(interval: real, calls: seq<Call>, account: AccountId)
    requires interval > 0.0
    ensures Spaced(Grants(interval, calls, account), interval)
  {
    if calls != [] {
      var before := calls[..|calls| - 1];
      GrantsAreSpaced(interval, before, account);
      SlotFollowsLastGrant(interval, before, account);
    }
  }

  lemma {:induction false} SpanOfGrants(grants: seq<real>, interval: real, i: nat, j: nat)
    requires Spaced(grants, interval) && i <= j < |grants|
    ensures grants[j] - grants[i] >= (j - i) as real * interval
    decreases j - i
  {
    if i < j {
      SpanOfGrants(grants, interval, i, j - 1);
      assert grants[j] - grants[j - 1] >= interval;
      assert (j - i) as real * interval == (j - 1 - i) as real * interval + interval;
    }
  }

  function CountIn(grants: seq<real>, from: real, to: real): nat {
    if grants == [] then 0
    else
      var last := grants[|grants| - 1];
      CountIn(grants[..|grants| - 1], from, to) + if from <= last <= to then 1 else 0
  }

  lemma {:induction false} CountedGrantsSpan(grants: seq<real>, from: real, to: real) returns (i: nat, j: nat)
    requires CountIn(grants, from, to) > 0
    ensures i <= j < |grants| && from <= grants[i] && grants[j] <= to
    ensures CountIn(grants, from, to) <= j - i + 1
  {
    var n := |grants| - 1;
    if CountIn(grants[..n], from, to) > 0 {
      i, j := CountedGrantsSpan(grants[..n], from, to);
      if from <= grants[n] <= to {
        j := n;
      }
    } else {
      i, j := n, n;
    }
  }

  lemma FewFit(n: nat, interval: real, length: real)
    requires interval > 0.0 && n as real * interval <= length
    ensures n <= (length / interval).Floor
  {
    var q := length / interval;
    var short := n as real - q;
    assert q * interval == length;
    assert short * interval == n as real * interval - q * interval;
    assert short > 0.0 ==> short * interval > 0.0;
  }

  lemma FewSpacedFit(grants: seq<real>, interval: real, from: real, to: real, length: real)
    requires interval > 0.0 && Spaced(grants, interval) && to - from == length && length >= 0.0
    ensures CountIn(grants, from, to) <= (length / interval).Floor + 1
  {
    if CountIn(grants, from, to) == 0 {
      FewFit(0, interval, length);
    } else {
      var i, j := CountedGrantsSpan(grants, from, to);
      var n: nat := j - i;
      SpanOfGrants(grants, interval, i, j);
      assert n as real * interval <= grants[j] - grants[i];
      FewFit(n, interval, length);
    }
  }

  /** Any window of length `length` holds at most floor(length / interval) + 1 grants. */
  lemma WindowBound(interval: real, calls: seq<Call>, account: AccountId, from: real, length: real)
    requires interval > 0.0 && length >= 0.0
    ensures CountIn(Grants(interval, calls, account), from, from + length) <= (length / interval).Floor + 1
  {
    GrantsAreSpaced(interval, calls, account);
    FewSpacedFit(Grants(interval, calls, account), interval, from, from + length, length);
  }

  // ----- postponing for pacing -----

  function AtLeastOne(n: int): int {
    if n < 1 then 1 else n
  }

  /** max(1, min(int(wait) + 1, cap)). */
  function PacingDelay(wait: real, cap: int): int
    requires wait >= 0.0
  {
    var whole := wait.Floor + 1;
    AtLeastOne(if whole <= cap then whole else cap)
  }

  /** The postponed task comes back after its slot has opened exactly when the general
      postpone delay, or the one second every postponement lasts, does not cut the wait short. */
  lemma PostponeOutlastsWait(wait: real, cap: int)
    requires wait > 0.0
    ensures PacingDelay(wait, cap) as real >= wait <==> AtLeastOne(cap) as real >= wait
    ensures 1 <= PacingDelay(wait, cap) <= AtLeastOne(cap)
    ensures PacingDelay(wait, cap) as real <= wait + 1.0
    ensures 1 <= cap && cap as real < wait ==> PacingDelay(wait, cap) == cap
  {
  }
}
