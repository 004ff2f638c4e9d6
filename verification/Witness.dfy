/** The optional physical witness: what it plans, and the loop that carries a plan out. */
module Witness {
  import opened Prelude
  import opened Evidence
  import opened Verdicts

  datatype Action = Signal | NoCommand

  datatype ScenarioPlan = ScenarioPlan(role: Role, action: Action)

  datatype Reason =
    | OutcomeNotVerified
    | RecomputedNotVerified
    | EnvelopeMismatch
    | RequestMismatch
    | ContractMismatch
    | SignalLimit
    | Planned

  datatype WitnessPlan = WitnessPlan(eligible: bool, reason: Reason, scenarios: seq<ScenarioPlan>)

  function SignalCount(items: seq<ScenarioPlan>): nat {
    if items == [] then 0 else (if items[0].action == Signal then 1 else 0) + SignalCount(items[1..])
  }

  /** `action_for`: the first entry of the role. */
  function ActionFor(items: seq<ScenarioPlan>, role: Role): Option<Action> {
    if items == [] then None else if items[0].role == role then Some(items[0].action) else ActionFor(items[1..], role)
  }

  function NoCommandPlan(reason: Reason): WitnessPlan {
    WitnessPlan(false, reason, [ScenarioPlan(Vulnerable, NoCommand), ScenarioPlan(Patched, NoCommand), ScenarioPlan(PositiveControl, NoCommand)])
  }

  const SIGNALS: seq<ScenarioPlan> :=
    [ScenarioPlan(Vulnerable, Signal), ScenarioPlan(Patched, NoCommand), ScenarioPlan(PositiveControl, Signal)]

  predicate ExpectedLabels(v: ExecutionEvidence, p: ExecutionEvidence, c: ExecutionEvidence) {
    && v.observedDecision == Accepted && v.securityVerdict == Fail
    && p.observedDecision == Rejected && p.securityVerdict == Pass
    && c.observedDecision == Accepted && c.securityVerdict == Pass
  }

  /** `plan_physical_witness`. */
  function PlanFor(e: EvidenceDocument): WitnessPlan {
    if e.outcome != PatchVerified then NoCommandPlan(OutcomeNotVerified)
    else if VerificationOutcome(e.executions) != PatchVerified then NoCommandPlan(RecomputedNotVerified)
    else
      OnePerRoleIsTrio(e.executions);
      var v := ByRole(e.executions, Vulnerable).value;
      var p := ByRole(e.executions, Patched).value;
      var c := ByRole(e.executions, PositiveControl).value;
      if v.package.envelopeSha256 != p.package.envelopeSha256 then NoCommandPlan(EnvelopeMismatch)
      else if v.requestBodySha256 != p.requestBodySha256 then NoCommandPlan(RequestMismatch)
      else if !ExpectedLabels(v, p, c) then NoCommandPlan(ContractMismatch)
      else if SignalCount(SIGNALS) > 2 then NoCommandPlan(SignalLimit)
      else WitnessPlan(true, Planned, SIGNALS)
  }

  lemma SignalsAreTwo()
    ensures SignalCount(SIGNALS) == 2
    ensures forall reason :: SignalCount(NoCommandPlan(reason).scenarios) == 0
  {
    var s := SIGNALS;
    assert s[1..] == [s[1], s[2]] && s[1..][1..] == [s[2]] && s[1..][1..][1..] == [];
    forall reason ensures SignalCount(NoCommandPlan(reason).scenarios) == 0 {
      var n := NoCommandPlan(reason).scenarios;
      assert n[1..] == [n[1], n[2]] && n[1..][1..] == [n[2]] && n[1..][1..][1..] == [];
    }
  }

  /** The labels a recomputed PATCH_VERIFIED implies, when the stored verdicts are the recomputed ones. */
  lemma VerifiedLabels(xs: seq<ExecutionEvidence>, v: ExecutionEvidence, p: ExecutionEvidence, c: ExecutionEvidence)
    requires Trio(xs, v, p, c) && VerificationOutcome(xs) == PatchVerified
    ensures v.package.envelopeSha256 == p.package.envelopeSha256 && v.requestBodySha256 == p.requestBodySha256
    ensures ExpectedLabels(v, p, c) <==>
            v.securityVerdict == IndividualVerdict(v) && p.securityVerdict == IndividualVerdict(p) && c.securityVerdict == IndividualVerdict(c)
  {
    OutcomeOfTrio(xs, v, p, c);
    hide VerificationOutcome;
  }

  /**
    * For every document, verified or not: signals are planned exactly when the stored and the
    * recomputed outcome are PATCH_VERIFIED and every stored verdict is the recomputed one; the two
    * hash exits and the signal limit are never taken.
    */
  lemma PlanExactly(e: EvidenceDocument)
    ensures PlanFor(e).eligible <==>
            && e.outcome == PatchVerified && VerificationOutcome(e.executions) == PatchVerified
            && forall x | x in e.executions :: x.securityVerdict == IndividualVerdict(x)
    ensures PlanFor(e).reason !in {EnvelopeMismatch, RequestMismatch, SignalLimit}
    ensures PlanFor(e).reason == OutcomeNotVerified <==> e.outcome != PatchVerified
    ensures PlanFor(e).reason == RecomputedNotVerified <==>
            e.outcome == PatchVerified && VerificationOutcome(e.executions) != PatchVerified
    ensures PlanFor(e).reason == Planned <==> PlanFor(e).eligible
    ensures PlanFor(e).scenarios ==
            [ScenarioPlan(Vulnerable, if PlanFor(e).eligible then Signal else NoCommand), ScenarioPlan(Patched, NoCommand),
             ScenarioPlan(PositiveControl, if PlanFor(e).eligible then Signal else NoCommand)]
  {
    SignalsAreTwo();
    if VerificationOutcome(e.executions) == PatchVerified {
      OnePerRoleIsTrio(e.executions);
      var v := ByRole(e.executions, Vulnerable).value;
      var p := ByRole(e.executions, Patched).value;
      var c := ByRole(e.executions, PositiveControl).value;
      VerifiedLabels(e.executions, v, p, c);
      TrioEntries(e.executions, v, p, c);
    }
    hide VerificationOutcome, IndividualVerdict, OnePerRole, ByRole, SignalCount;
  }

  /** Every role has an action in every plan, so the lookup by role always finds one. */
  lemma EveryRoleHasAnAction(e: EvidenceDocument, role: Role)
    ensures ActionFor(PlanFor(e).scenarios, role) == Some(if PlanFor(e).eligible && role != Patched then Signal else NoCommand)
  {
    PlanExactly(e);
    hide VerificationOutcome, PlanFor;
    var s := PlanFor(e).scenarios;
    assert s[1..] == [s[1], s[2]] && s[1..][1..] == [s[2]] && s[1..][1..][1..] == [];
    assert ActionFor(s[1..][1..], PositiveControl) == Some(s[2].action);
  }

  /* ---- Carrying a plan out ---- */

  const COOLDOWN: real := 20.0

  /** When a locate command was begun and when its call returned. */
  datatype Send = Send(role: Role, begun: real, returned: real)

  predicate Apart(sends: seq<Send>) {
    && (forall i | 0 <= i < |sends| :: sends[i].begun <= sends[i].returned)
    && forall i, j | 0 <= i < j < |sends| :: sends[j].begun - sends[i].returned >= 20.0
  }

  function SignalRoles(items: seq<ScenarioPlan>): seq<Role> {
    if items == [] then []
    else (if items[0].action == Signal then [items[0].role] else []) + SignalRoles(items[1..])
  }

  function Roles(sends: seq<Send>): seq<Role> {
    seq(|sends|, i requires 0 <= i < |sends| => sends[i].role)
  }

  /**
    * The clock, the sleeper and the robot. Time passes between any two uses of them by the amounts
    * in `lapses`, a sleep lasts at least as long as asked, and `failing` says which locate calls raise.
    */
  class Environment {
    const lapses: nat -> real
    const failing: nat -> bool
    var now: real
    var uses: nat
    ghost var sends: seq<Send>

    ghost predicate Valid()
      reads this
    {
      && (forall n :: lapses(n) >= 0.0)
      && Apart(sends)
      && forall i | 0 <= i < |sends| :: sends[i].returned <= now
    }

    constructor (lapses: nat -> real, failing: nat -> bool, start: real)
      requires forall n :: lapses(n) >= 0.0
      ensures Valid() && sends == [] && now == start
    {
      this.lapses, this.failing := lapses, failing;
      now, uses, sends := start, 0, [];
    }

    method Monotonic() returns (t: real)
      requires Valid()
      modifies `now, `uses
      ensures Valid() && t == now >= old(now)
    {
      now := now + lapses(uses);
      uses := uses + 1;
      t := now;
    }

    method Sleep(asked: real)
      requires Valid() && asked > 0.0
      modifies `now, `uses
      ensures Valid() && now >= old(now) + asked
    {
      now := now + asked + lapses(uses);
      uses := uses + 1;
    }

    /** A call that raises may have sent its command all the same, so it is recorded too. */
    method LocateOnce(ghost role: Role) returns (ok: bool)
      requires Valid()
      requires forall i | 0 <= i < |sends| :: now - sends[i].returned >= COOLDOWN
      modifies `now, `uses, `sends
      ensures Valid() && now >= old(now)
      ensures |sends| == |old(sends)| + 1 && sends[..|old(sends)|] == old(sends)
      ensures sends[|old(sends)|] == Send(role, sends[|old(sends)|].begun, now) && old(now) <= sends[|old(sends)|].begun
    {
      now := now + lapses(uses);
      ghost var begun := now;
      now := now + lapses(uses + 1);
      ok := !failing(uses);
      uses := uses + 2;
      sends := sends + [Send(role, begun, now)];
    }
  }

  datatype WitnessError = NotEligible | LimitExceeded | LocateFailed

  datatype Report = Report(role: Role, sent: bool)

  function Reports(items: seq<ScenarioPlan>): seq<Report> {
    seq(|items|, i requires 0 <= i < |items| => Report(items[i].role, items[i].action == Signal))
  }

  lemma {:induction false} CountAppend(items: seq<ScenarioPlan>, item: ScenarioPlan)
    ensures SignalCount(items + [item]) == SignalCount(items) + if item.action == Signal then 1 else 0
    ensures SignalRoles(items + [item]) == SignalRoles(items) + if item.action == Signal then [item.role] else []
    ensures |SignalRoles(items)| == SignalCount(items)
  {
    if items == [] {
      assert (items + [item])[1..] == [];
    } else {
      assert (items + [item])[1..] == items[1..] + [item];
      CountAppend(items[1..], item);
    }
  }

  lemma {:induction false} CountPrefix(items: seq<ScenarioPlan>, n: nat)
    requires n < |items| && items[n].action == Signal
    ensures SignalCount(items[..n]) < SignalCount(items)
  {
    if n == 0 {
      assert items[..0] == [];
    } else {
      assert items[..n][1..] == items[1..][..n - 1];
      CountPrefix(items[1..], n - 1);
    }
  }

  predicate AllReturnedBy(sends: seq<Send>, t: real) {
    forall i | 0 <= i < |sends| :: sends[i].returned <= t
  }

  /** Waiting out the rest of the cooldown. */
  method CoolDown(env: Environment, last: Option<real>)
    requires env.Valid() && (last.None? ==> env.sends == []) && (last.Some? ==> AllReturnedBy(env.sends, last.value))
    modifies env`now, env`uses
    ensures env.Valid() && forall i | 0 <= i < |env.sends| :: env.now - env.sends[i].returned >= COOLDOWN
  {
    if last.Some? {
      var t := env.Monotonic();
      var remaining := COOLDOWN - (t - last.value);
      if remaining > 0.0 {
        env.Sleep(remaining);
      }
    }
  }

  lemma NothingSent(items: seq<ScenarioPlan>, sends: seq<Send>)
    requires sends == []
    ensures Reports(items[..0]) == [] && SignalCount(items[..0]) == 0 && Roles(sends) == SignalRoles(items[..0]) == []
  {
  }

  lemma ReportsGrow(items: seq<ScenarioPlan>, n: nat)
    requires n < |items|
    ensures Reports(items[..n + 1]) == Reports(items[..n]) + [Report(items[n].role, items[n].action == Signal)]
  {
  }

  lemma ReturnedByNow(env: Environment, t: real)
    requires env.Valid() && env.now <= t
    ensures AllReturnedBy(env.sends, t)
  {
  }

  lemma RolesGrow(before: seq<Send>, after: seq<Send>, role: Role)
    requires |after| == |before| + 1 && after[..|before|] == before && after[|before|].role == role
    ensures Roles(after) == Roles(before) + [role]
  {
    assert forall i | 0 <= i < |before| :: after[i] == after[..|before|][i];
  }

  /**
    * `_execute_live_plan`, for any plan with any number of scenarios: at most the planned commands
    * are sent, in order, for signalled roles only, and at least the cooldown apart.
    */
  method ExecuteLivePlan(plan: WitnessPlan, env: Environment) returns (r: Result<seq<Report>, WitnessError>)
    requires env.Valid() && env.sends == []
    modifies env
    ensures env.Valid() && Apart(env.sends)
    ensures r == Err(NotEligible) <==> !plan.eligible || SignalCount(plan.scenarios) > 2
    ensures r == Err(NotEligible) ==> env.sends == []
    ensures r != Err(LimitExceeded)
    ensures Roles(env.sends) <= SignalRoles(plan.scenarios)
    ensures r.Ok? ==> Roles(env.sends) == SignalRoles(plan.scenarios) && |env.sends| == SignalCount(plan.scenarios)
    ensures r.Ok? ==> r.value == Reports(plan.scenarios)
  {
    if !plan.eligible || SignalCount(plan.scenarios) > 2 {
      return Err(NotEligible);
    }
    hide Apart, SignalRoles, SignalCount, AllReturnedBy, Reports;
    var items := plan.scenarios;
    NothingSent(items, env.sends);
    var results: seq<Report> := [];
    var lastSignalAt: Option<real> := None;
    var sent := 0;
    for n := 0 to |items|
      invariant env.Valid()
      invariant results == Reports(items[..n])
      invariant sent == |env.sends| == SignalCount(items[..n])
      invariant Roles(env.sends) == SignalRoles(items[..n])
      invariant sent == 0 <==> lastSignalAt.None?
      invariant lastSignalAt.Some? ==> AllReturnedBy(env.sends, lastSignalAt.value)
      invariant SignalRoles(items[..n]) <= SignalRoles(items)
    {
      var item := items[n];
      assert items[..n + 1] == items[..n] + [item];
      CountAppend(items[..n], item);
      RolesPrefix(items, n + 1);
      ReportsGrow(items, n);
      if item.action == NoCommand {
        results := results + [Report(item.role, false)];
        continue;
      }
      CountPrefix(items, n);
      if sent >= 2 {
        return Err(LimitExceeded);
      }
      CoolDown(env, lastSignalAt);
      ghost var before := env.sends;
      var ok := env.LocateOnce(item.role);
      RolesGrow(before, env.sends, item.role);
      hide Roles;
      if !ok {
        return Err(LocateFailed);
      }
      sent := sent + 1;
      var t := env.Monotonic();
      lastSignalAt := Some(t);
      assert AllReturnedBy(env.sends, t) by { ReturnedByNow(env, t); }
      results := results + [Report(item.role, true)];
    }
    assert items[..|items|] == items;
    r := Ok(results);
  }

  lemma {:induction false} RolesPrefix(items: seq<ScenarioPlan>, n: nat)
    requires n <= |items|
    ensures SignalRoles(items[..n]) <= SignalRoles(items)
  {
    if n > 0 {
      assert items[..n][1..] == items[1..][..n - 1];
      RolesPrefix(items[1..], n - 1);
    }
  }
}
