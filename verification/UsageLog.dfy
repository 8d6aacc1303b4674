/** The hourly resource budget: the usage log, the availability view and the gate that
    reads it. */
module UsageLog {
  import opened Schema

  const HOUR: int := 3600

  predicate Counts(row: UsageRow, account: AccountId, op: OpId, now: Time) {
    row.account == account && row.op == op && row.at >= now - HOUR
  }

  /** SUM(units) over the rows of the last hour. */
  function UsedIn(rows: seq<UsageRow>, account: AccountId, op: OpId, now: Time): nat {
    if rows == [] then 0
    else
      var last := rows[|rows| - 1];
      UsedIn(rows[..|rows| - 1], account, op, now) + if Counts(last, account, op, now) then last.units else 0
  }

  function Used(db: Db, account: AccountId, op: OpId): nat {
    UsedIn(db.usage, account, op, db.now)
  }

  function Charge(db: Db, account: AccountId, op: TypeOp, task: TaskId): Db {
    db.(usage := db.usage + [UsageRow(account, op.opId, task, op.units, db.now)])
  }

  lemma ChargeAdds(db: Db, account: AccountId, op: TypeOp, task: TaskId, a: AccountId, o: OpId)
    ensures Used(Charge(db, account, op, task), a, o)
         == Used(db, a, o) + if a == account && o == op.opId then op.units else 0
  {
    var rows := db.usage + [UsageRow(account, op.opId, task, op.units, db.now)];
    assert rows[..|rows| - 1] == db.usage;
  }

  // As time passes rows only leave the window.
  lemma {:induction false} WindowSlides(rows: seq<UsageRow>, account: AccountId, op: OpId, t: Time, u: Time)
    requires t <= u
    ensures UsedIn(rows, account, op, u) <= UsedIn(rows, account, op, t)
  {
    if rows != [] {
      WindowSlides(rows[..|rows| - 1], account, op, t, u);
    }
  }

  // ----- the hour -----

  // The rows of one account and operation from an instant on, and what rows add up to.
  function RowsSince(rows: seq<UsageRow>, account: AccountId, op: OpId, since: Time): seq<UsageRow> {
    if rows == [] then []
    else
      var last := rows[|rows| - 1];
      RowsSince(rows[..|rows| - 1], account, op, since)
      + if last.account == account && last.op == op && last.at >= since then [last] else []
  }

  function Units(rows: seq<UsageRow>): nat {
    if rows == [] then 0 else Units(rows[..|rows| - 1]) + rows[|rows| - 1].units
  }

  lemma {:induction false} UnitsOfHour(rows: seq<UsageRow>, account: AccountId, op: OpId, now: Time)
    ensures UsedIn(rows, account, op, now) == Units(RowsSince(rows, account, op, now - 3600))
  {
    if rows != [] {
      var last := rows[|rows| - 1];
      var before := RowsSince(rows[..|rows| - 1], account, op, now - 3600);
      UnitsOfHour(rows[..|rows| - 1], account, op, now);
      assert (before + [last])[..|before|] == before;
      assert before + [] == before;
    }
  }

  /** Units charged now are in the sum for exactly an hour: at every instant up to 3600 seconds
      later, that one included, and at none after it. */
  lemma CountsForAnHour(db: Db, account: AccountId, op: TypeOp, task: TaskId, later: Time)
    requires later >= db.now
    ensures Used(Charge(db, account, op, task).(now := later), account, op.opId)
         == Used(db.(now := later), account, op.opId) + if later <= db.now + 3600 then op.units else 0
  {
    var rows := db.usage + [UsageRow(account, op.opId, task, op.units, db.now)];
    assert rows[..|rows| - 1] == db.usage;
  }

  // ----- the availability view -----

  /** floor(rph_limit * (1 - reserve_percent / 100)). */
  function EffectiveRph(op: TypeOp): int {
    (op.rphLimit as real * (1.0 - op.reservePercent / 100.0)).Floor
  }

  /** The effective rate is the whole number just below the share of the hourly limit that the
      reserve leaves. */
  lemma EffectiveIsShare(op: TypeOp)
    ensures var share := op.rphLimit as real * (100.0 - op.reservePercent) / 100.0;
      EffectiveRph(op) as real <= share < EffectiveRph(op) as real + 1.0
  {
    assert op.rphLimit as real * (1.0 - op.reservePercent / 100.0)
        == op.rphLimit as real * (100.0 - op.reservePercent) / 100.0;
  }

  // SQL round(x, 2): half away from zero.
  function Round2(x: real): real {
    if x >= 0.0 then (x * 100.0 + 0.5).Floor as real / 100.0
    else -((0.5 - x * 100.0).Floor as real / 100.0)
  }

  function AvailablePercent(effective: int, used: int): real {
    if effective > 0 then Round2((effective - used) as real / effective as real * 100.0) else 0.0
  }

  datatype CheckResult =
    | CheckOk
    | NoOpsForRole(role: Role)
    | MissingAvailability(op: string)
    | Insufficient(op: string, percent: real)

  function ResolveThreshold(dbThreshold: int, fromEnv: Option<int>): int {
    if fromEnv.Some? && 0 <= fromEnv.value <= 100 then fromEnv.value else dbThreshold
  }

  function ThresholdOf(db: Db, tt: TaskType): int {
    ResolveThreshold(tt.minAvailablePercent, db.thresholdOverride)
  }

  predicate GatePasses(db: Db, account: AccountId, op: TypeOp, threshold: int) {
    account in db.accounts
    && AvailablePercent(EffectiveRph(op), Used(db, account, op.opId)) >= threshold as real
  }

  /** The gate reads the units charged to the account in the last hour. */
  lemma GateReadsTheHour(db: Db, account: AccountId, op: TypeOp, threshold: int)
    ensures GatePasses(db, account, op, threshold) <==>
      && account in db.accounts
      && var used := Units(RowsSince(db.usage, account, op.opId, db.now - 3600));
      AvailablePercent(EffectiveRph(op), used) >= threshold as real
  {
    UnitsOfHour(db.usage, account, op.opId, db.now);
  }

  /** The environment overrides the type's threshold with a percentage, and with nothing else. */
  lemma OverrideIsAPercentage(tt: TaskType, db: Db, percent: int)
    requires db.thresholdOverride == Some(percent) || db.thresholdOverride.None?
    ensures db.thresholdOverride.Some? && 0 <= percent <= 100 ==> ThresholdOf(db, tt) == percent
    ensures db.thresholdOverride.None? || !(0 <= percent <= 100) ==> ThresholdOf(db, tt) == tt.minAvailablePercent
  {
  }

  /** The operations a check looks at and a charge pays for. */
  function OpsFor(ops: seq<TypeOp>, role: Role): (r: seq<TypeOp>)
    ensures forall op :: op in r <==> op in ops && op.role == role && op.enabled
  {
    if ops == [] then []
    else (if ops[0].role == role && ops[0].enabled then [ops[0]] else []) + OpsFor(ops[1..], role)
  }

  // First failing operation in order, as the early-return scan finds it.
  function ScanOps(db: Db, account: AccountId, ops: seq<TypeOp>, threshold: int): CheckResult {
    if ops == [] then CheckOk
    else if account !in db.accounts then MissingAvailability(ops[0].opCode)
    else
      var percent := AvailablePercent(EffectiveRph(ops[0]), Used(db, account, ops[0].opId));
      if percent < threshold as real then Insufficient(ops[0].opCode, percent)
      else ScanOps(db, account, ops[1..], threshold)
  }

  function CheckAccount(db: Db, account: AccountId, tt: TaskType, role: Role): CheckResult {
    var ops := OpsFor(tt.ops, role);
    if ops == [] then NoOpsForRole(role)
    else ScanOps(db, account, ops, ThresholdOf(db, tt))
  }

  lemma {:induction false} ScanPassesAll(db: Db, account: AccountId, ops: seq<TypeOp>, threshold: int)
    ensures ScanOps(db, account, ops, threshold).CheckOk?
       <==> forall op :: op in ops ==> GatePasses(db, account, op, threshold)
  {
    if ops != [] {
      ScanPassesAll(db, account, ops[1..], threshold);
      assert forall op :: op in ops <==> op == ops[0] || op in ops[1..];
      assert ops[0] in ops;
    }
  }

  /** The role has an enabled operation, and every enabled one of it passes its gate. */
  ghost predicate WithinBudget(db: Db, account: AccountId, tt: TaskType, role: Role) {
    && (exists op :: op in tt.ops && op.role == role && op.enabled)
    && forall op :: op in tt.ops && op.role == role && op.enabled ==> GatePasses(db, account, op, ThresholdOf(db, tt))
  }

  /** The check passes exactly when the role has work at all and every enabled operation of
      it, whatever its position, is above the threshold. */
  lemma CheckPassesIff(db: Db, account: AccountId, tt: TaskType, role: Role)
    ensures CheckAccount(db, account, tt, role).CheckOk? <==> WithinBudget(db, account, tt, role)
  {
    var ops := OpsFor(tt.ops, role);
    ScanPassesAll(db, account, ops, ThresholdOf(db, tt));
    if ops != [] {
      assert ops[0] in ops;
    }
  }

  predicate Due(op: TypeOp, role: Role) {
    op.role == role && op.enabled
  }

  // Operation i is the first of the role's enabled ones whose gate does not pass.
  ghost predicate FailsFirst(db: Db, account: AccountId, ops: seq<TypeOp>, role: Role, threshold: int, i: nat) {
    && i < |ops| && Due(ops[i], role) && !GatePasses(db, account, ops[i], threshold)
    && forall j :: 0 <= j < i && Due(ops[j], role) ==> GatePasses(db, account, ops[j], threshold)
  }

  // How a refused check names the operation: its share, or that the account has none at all.
  function Refusal(db: Db, account: AccountId, op: TypeOp): CheckResult {
    if account !in db.accounts then MissingAvailability(op.opCode)
    else Insufficient(op.opCode, AvailablePercent(EffectiveRph(op), Used(db, account, op.opId)))
  }

  ghost predicate Refuses(db: Db, account: AccountId, ops: seq<TypeOp>, role: Role, threshold: int, r: CheckResult) {
    exists i: nat :: FailsFirst(db, account, ops, role, threshold, i) && r == Refusal(db, account, ops[i])
  }

  ghost predicate ScanAnswers(db: Db, account: AccountId, ops: seq<TypeOp>, role: Role, threshold: int,
                              r: CheckResult) {
    if r.CheckOk? then forall op :: op in ops && Due(op, role) ==> GatePasses(db, account, op, threshold)
    else Refuses(db, account, ops, role, threshold, r)
  }

  lemma FailsLater(db: Db, account: AccountId, ops: seq<TypeOp>, role: Role, threshold: int, r: CheckResult)
    requires ops != [] && (Due(ops[0], role) ==> GatePasses(db, account, ops[0], threshold))
    requires Refuses(db, account, ops[1..], role, threshold, r)
    ensures Refuses(db, account, ops, role, threshold, r)
  {
    var i: nat :| FailsFirst(db, account, ops[1..], role, threshold, i) && r == Refusal(db, account, ops[1..][i]);
    forall j | 0 <= j < i + 1 && Due(ops[j], role) ensures GatePasses(db, account, ops[j], threshold) {
      assert j > 0 ==> ops[j] == ops[1..][j - 1];
    }
    assert ops[1..][i] == ops[i + 1];
    assert FailsFirst(db, account, ops, role, threshold, i + 1);
  }

  lemma {:induction false} ScanNamesFirst(db: Db, account: AccountId, ops: seq<TypeOp>, role: Role, threshold: int)
    ensures ScanAnswers(db, account, ops, role, threshold, ScanOps(db, account, OpsFor(ops, role), threshold))
  {
    if ops != [] {
      var rest := OpsFor(ops[1..], role);
      ScanNamesFirst(db, account, ops[1..], role, threshold);
      if Due(ops[0], role) {
        ScanHead(db, account, ops[0], rest, threshold);
        assert OpsFor(ops, role) == [ops[0]] + rest;
      } else {
        assert OpsFor(ops, role) == rest;
      }
      if Due(ops[0], role) && !GatePasses(db, account, ops[0], threshold) {
        assert FailsFirst(db, account, ops, role, threshold, 0);
      } else if !ScanOps(db, account, rest, threshold).CheckOk? {
        FailsLater(db, account, ops, role, threshold, ScanOps(db, account, rest, threshold));
      } else {
        assert forall op :: op in ops <==> op == ops[0] || op in ops[1..];
      }
    }
  }

  lemma {:induction false} ScanHead(db: Db, account: AccountId, op: TypeOp, rest: seq<TypeOp>, threshold: int)
    ensures ScanOps(db, account, [op] + rest, threshold)
         == if GatePasses(db, account, op, threshold) then ScanOps(db, account, rest, threshold)
            else Refusal(db, account, op)
  {
    assert ([op] + rest)[1..] == rest;
  }

  // What the check answers, for a role with work and for one without.
  ghost predicate CheckAnswers(db: Db, account: AccountId, tt: TaskType, role: Role, r: CheckResult) {
    if exists op :: op in tt.ops && op.role == role && op.enabled then
      ScanAnswers(db, account, tt.ops, role, ThresholdOf(db, tt), r)
    else r == NoOpsForRole(role)
  }

  /** The check names the first failing operation of the role in the order of the list, or says
      that the role has no enabled one. */
  lemma CheckNamesFirst(db: Db, account: AccountId, tt: TaskType, role: Role)
    ensures CheckAnswers(db, account, tt, role, CheckAccount(db, account, tt, role))
  {
    ScanNamesFirst(db, account, tt.ops, role, ThresholdOf(db, tt));
    if OpsFor(tt.ops, role) != [] {
      assert OpsFor(tt.ops, role)[0] in OpsFor(tt.ops, role);
    }
  }

  // ----- what a passed gate means -----

  /** The most an operation may have used for its gate to pass: the documented share
      effective * (100 - threshold) / 100, plus what rounding to two decimals lets through. */
  function GateLimit(op: TypeOp, threshold: int): real {
    var effective := EffectiveRph(op);
    if effective > 0 then effective as real * (100.0 - threshold as real + 0.005) / 100.0 else 0.0
  }

  lemma FloorAtLeast(x: real, n: int)
    ensures x.Floor >= n <==> x >= n as real
  {
  }

  lemma ProductSign(a: real, e: real)
    requires e > 0.0
    ensures a * e >= 0.0 <==> a >= 0.0
  {
  }

  lemma PercentArithmetic(e: real, u: real, t: real)
    requires e > 0.0
    ensures (e - u) / e * 100.0 >= t - 0.005 <==> u <= e * (100.0 - t + 0.005) / 100.0
  {
    var q := (e - u) / e;
    var margin := q * 100.0 - (t - 0.005);
    ProductSign(margin, e);
    assert margin * e == (q * e) * 100.0 - (t - 0.005) * e;
    assert q * e == e - u;
  }

  /** For a positive threshold the gate passes exactly while usage is within GateLimit. */
  lemma GateMeaning(effective: int, used: nat, threshold: int)
    requires effective > 0 && threshold > 0
    ensures AvailablePercent(effective, used) >= threshold as real
       <==> used as real <= effective as real * (100.0 - threshold as real + 0.005) / 100.0
  {
    var x := (effective - used) as real / effective as real * 100.0;
    PercentArithmetic(effective as real, used as real, threshold as real);
    if x >= 0.0 {
      FloorAtLeast(x * 100.0 + 0.5, threshold * 100);
    }
  }

  /** Whether the gate lets an account through that has used this much of an operation. */
  predicate Admits(effective: int, threshold: int, used: nat) {
    AvailablePercent(effective, used) >= threshold as real
  }

  ghost predicate AdmitsAtMost(effective: int, threshold: int, limit: nat) {
    forall used: nat :: Admits(effective, threshold, used) ==> used <= limit
  }

  ghost predicate BoundsUse(effective: int, threshold: int) {
    exists limit: nat :: AdmitsAtMost(effective, threshold, limit)
  }

  lemma AdmittedUse(effective: int, threshold: int, used: nat)
    requires effective > 0 && Admits(effective, threshold, used)
    ensures used as real <= effective as real * (100.0 - threshold as real + 0.005) / 100.0
  {
    var x := (effective - used) as real / effective as real * 100.0;
    PercentArithmetic(effective as real, used as real, threshold as real);
    if x >= 0.0 {
      FloorAtLeast(x * 100.0 + 0.5, threshold * 100);
    } else {
      FloorAtLeast(0.5 - x * 100.0, 1 - threshold * 100);
    }
  }

  /** The gate bounds an operation's use at all if and only if its effective rate or its
      threshold is positive, both known from the configuration. */
  lemma GateBoundsUseIff(effective: int, threshold: int)
    ensures BoundsUse(effective, threshold) <==> effective > 0 || threshold > 0
  {
    if effective > 0 {
      var share := effective as real * (100.0 - threshold as real + 0.005) / 100.0;
      var limit: nat := if share >= 0.0 then share.Floor else 0;
      forall used: nat | Admits(effective, threshold, used) ensures used <= limit {
        AdmittedUse(effective, threshold, used);
      }
      assert AdmitsAtMost(effective, threshold, limit);
    } else if threshold > 0 {
      assert AdmitsAtMost(effective, threshold, 0);
    } else {
      forall limit: nat ensures !AdmitsAtMost(effective, threshold, limit) {
        assert Admits(effective, threshold, limit + 1);
      }
    }
  }

  lemma PassedGateBoundsUse(db: Db, account: AccountId, op: TypeOp, threshold: int)
    requires GatePasses(db, account, op, threshold) && threshold >= 0 && EffectiveRph(op) > 0
    ensures Used(db, account, op.opId) as real <= GateLimit(op, threshold)
  {
    AdmittedUse(EffectiveRph(op), threshold, Used(db, account, op.opId));
  }

  /** The documented formula has no rounding; the view rounds. 3 of 299 units used leaves
      98.99...%, which the view shows as 99.00 and the gate lets through at threshold 99. */
  lemma RoundingLetsOneMoreThrough()
    ensures AvailablePercent(299, 3) >= 99.0
    ensures !(299.0 * (100.0 - 99.0) / 100.0 >= 3.0)
  {
    var x := (299 - 3) as real / 299.0 * 100.0;
    PercentArithmetic(299.0, 3.0, 99.0);
    FloorAtLeast(x * 100.0 + 0.5, 9900);
  }

  lemma Scale(x: real, y: real, factor: real)
    requires x <= y && factor >= 0.0
    ensures x * factor <= y * factor
  {
  }

  /** In configured terms: the gate lets through at most the share of the hourly limit that
      reserve and threshold leave, plus the rounding. */
  lemma LimitWithinConfigured(op: TypeOp, threshold: int)
    requires 0.0 <= op.reservePercent <= 100.0 && threshold <= 100
    ensures GateLimit(op, threshold)
         <= op.rphLimit as real * (1.0 - op.reservePercent / 100.0) * (100.0 - threshold as real + 0.005) / 100.0
  {
    var share := op.rphLimit as real * (1.0 - op.reservePercent / 100.0);
    var factor := 100.0 - threshold as real + 0.005;
    Scale(0.0, op.rphLimit as real, 1.0 - op.reservePercent / 100.0);
    assert EffectiveRph(op) as real <= share;
    Scale(EffectiveRph(op) as real, share, factor);
    Scale(0.0, share, factor);
  }
}
