/** The engine's decision over a policy set, and the floor no customer slice can lift. */
module PolicyFloor {
  import opened Options
  import opened PolicyBundle

  datatype Value = Bool(b: bool) | Text(s: string) | Other(n: nat)

  /** `within` is everything the action is `in`: itself, its groups, and theirs. */
  datatype Request = Request(principal: string, action: string, resource: string, within: set<string>, context: map<string, Value>)

  /** A policy that reaches an absent or ill-typed value errors, and is skipped. */
  datatype Outcome = Satisfied | Unsatisfied | Errored
  datatype Effect = Permit | Forbid
  datatype Policy = Policy(effect: Effect, applies: Request -> Outcome)

  // ---- Cedar's answer ----

  ghost predicate Fires(policies: map<string, Policy>, effect: Effect, r: Request) {
    exists id :: id in policies && policies[id].effect == effect && policies[id].applies(r) == Satisfied
  }

  /** Deny by default; a forbid overrides every permit; a policy that errors is skipped. */
  ghost predicate Allows(policies: map<string, Policy>, r: Request) {
    Fires(policies, Permit, r) && !Fires(policies, Forbid, r)
  }

  // ---- authorize ----

  datatype Decision = Permitted | NeedsApproval | Denied

  function Flagged(r: Request, approvalFlag: string, confirmed: bool): Request {
    r.(context := r.context[approvalFlag := Bool(confirmed)])
  }

  /** `fails` says which evaluations cannot be carried out at all; each of those denies. */
  ghost function Authorize(policies: map<string, Policy>, approvalFlag: string, fails: Request -> bool, r: Request): Decision {
    var base, confirmed := Flagged(r, approvalFlag, false), Flagged(r, approvalFlag, true);
    if fails(base) then Denied
    else if Allows(policies, base) then Permitted
    else if !fails(confirmed) && Allows(policies, confirmed) then NeedsApproval
    else Denied
  }

  /** The decision as the engine takes it: one evaluation, and a second as if confirmed. */
  method Decide(evaluate: Request -> Option<bool>, ghost policies: map<string, Policy>, approvalFlag: string, r: Request) returns (decision: Decision)
    requires forall q :: evaluate(q).Some? ==> (evaluate(q).value <==> Allows(policies, q))
    ensures decision == Authorize(policies, approvalFlag, q => evaluate(q) == None, r)
  {
    var first := evaluate(Flagged(r, approvalFlag, false));
    if first == None {
      return Denied;
    }
    if first.value {
      return Permitted;
    }
    var probed := evaluate(Flagged(r, approvalFlag, true));
    decision := if probed == Some(true) then NeedsApproval else Denied;
  }

  // ---- the system posture ----

  const CONFIRMATION: string := "confirmationUsed"

  /** `context has x && context.x` */
  function HasTrue(r: Request, key: string): Outcome {
    if key !in r.context then Unsatisfied
    else if !r.context[key].Bool? then Errored
    else if r.context[key].b then Satisfied
    else Unsatisfied
  }

  predicate Interactive(r: Request) {
    "runMode" in r.context && r.context["runMode"] == Text("interactive")
  }

  function ReadsRun(): Policy {
    Policy(Permit, (r: Request) => if "reads" in r.within then Satisfied else Unsatisfied)
  }

  function WritesNeedConfirmation(): Policy {
    Policy(Permit, (r: Request) => if "writes" in r.within then HasTrue(r, CONFIRMATION) else Unsatisfied)
  }

  function UnconfirmedWriteForbidden(): Policy {
    Policy(Forbid, (r: Request) =>
      if "writes" !in r.within then Unsatisfied
      else match HasTrue(r, CONFIRMATION)
        case Errored => Errored
        case Satisfied => Unsatisfied
        case Unsatisfied => if Interactive(r) then Unsatisfied else Satisfied)
  }

  const READS_RUN: string := "floor:reads-run"
  const WRITES_CONFIRM: string := "floor:writes-need-confirmation"
  const WRITE_FORBIDDEN: string := "floor:unconfirmed-autonomous-write-forbidden"

  /** The posture as text, each rule one policy that parses to what it says. */
  ghost predicate IsPosture(system: NamedPolicies, parse: string -> Option<seq<Policy>>) {
    && system.Keys == {READS_RUN, WRITES_CONFIRM, WRITE_FORBIDDEN}
    && parse(system[READS_RUN]) == Some([ReadsRun()])
    && parse(system[WRITES_CONFIRM]) == Some([WritesNeedConfirmation()])
    && parse(system[WRITE_FORBIDDEN]) == Some([UnconfirmedWriteForbidden()])
  }

  ghost predicate HasFloor(policies: map<string, Policy>) {
    && READS_RUN in policies && policies[READS_RUN] == ReadsRun()
    && WRITES_CONFIRM in policies && policies[WRITES_CONFIRM] == WritesNeedConfirmation()
    && WRITE_FORBIDDEN in policies && policies[WRITE_FORBIDDEN] == UnconfirmedWriteForbidden()
  }

  /** THE FLOOR IS ALWAYS THERE. Whatever slices a bundle was loaded from, the engine built from it holds
      the three floor rules under their own ids; so does the shadow engine. */
  lemma FloorIsLoaded(parse: string -> Option<seq<Policy>>, system: NamedPolicies, slices: seq<Slice>, shadowed: bool, policies: map<string, Policy>)
    requires IsPosture(system, parse) && Loads(system, slices)
    requires IsNamedSet(parse,
               if shadowed then system + OfMode(slices, Enforce) + OfMode(slices, Shadow) else system + OfMode(slices, Enforce), policies)
    ensures HasFloor(policies)
  {
    var named := if shadowed then system + OfMode(slices, Enforce) + OfMode(slices, Shadow) else system + OfMode(slices, Enforce);
    SystemSurvives(system, slices, READS_RUN);
    SystemSurvives(system, slices, WRITES_CONFIRM);
    SystemSurvives(system, slices, WRITE_FORBIDDEN);
    SingleKeepsName(parse, named, policies, READS_RUN, ReadsRun());
    SingleKeepsName(parse, named, policies, WRITES_CONFIRM, WritesNeedConfirmation());
    SingleKeepsName(parse, named, policies, WRITE_FORBIDDEN, UnconfirmedWriteForbidden());
  }

  // ---- the seal ----

  /** The context says, in whatever way, that the write was confirmed, and the engine will not unsay it. */
  predicate Unsealed(approvalFlag: string, r: Request) {
    approvalFlag != CONFIRMATION && CONFIRMATION in r.context && r.context[CONFIRMATION] != Bool(false)
  }

  predicate WriteUnattended(approvalFlag: string, r: Request) {
    "writes" in r.within && !Interactive(Flagged(r, approvalFlag, false))
  }

  lemma ForbidFires(policies: map<string, Policy>, approvalFlag: string, r: Request)
    requires HasFloor(policies) && WriteUnattended(approvalFlag, r) && !Unsealed(approvalFlag, r)
    ensures Fires(policies, Forbid, Flagged(r, approvalFlag, false))
  {
    assert policies[WRITE_FORBIDDEN].applies(Flagged(r, approvalFlag, false)) == Satisfied;
  }

  /** SEALED FLOOR. Over any policies beside the floor, and whatever the context claims, a write whose run
      is not known to be interactive is never simply permitted by the engine's own flag. */
  lemma FloorIsSealed(policies: map<string, Policy>, fails: Request -> bool, r: Request)
    requires HasFloor(policies) && "writes" in r.within && !Interactive(r)
    ensures Authorize(policies, CONFIRMATION, fails, r) != Permitted
  {
    ForbidFires(policies, CONFIRMATION, r);
  }

  function PermitAll(): Policy {
    Policy(Permit, (r: Request) => Satisfied)
  }

  function Floor(): map<string, Policy> {
    map[READS_RUN := ReadsRun(), WRITES_CONFIRM := WritesNeedConfirmation(), WRITE_FORBIDDEN := UnconfirmedWriteForbidden()]
  }

  /** WHEN IT IS NOT. With another approval flag, some policy set over the floor permits an unattended
      write exactly when its context carries a `confirmationUsed` other than false: the engine overwrites
      its own flag, and only that. */
  lemma SealHoldsIff(approvalFlag: string, r: Request)
    requires WriteUnattended(approvalFlag, r)
    ensures (exists policies :: HasFloor(policies) && Authorize(policies, approvalFlag, q => false, r) == Permitted) <==> Unsealed(approvalFlag, r)
  {
    if Unsealed(approvalFlag, r) {
      var policies := Floor()["allow" := PermitAll()];
      var base := Flagged(r, approvalFlag, false);
      assert policies["allow"].applies(base) == Satisfied;
      assert base.context[CONFIRMATION] == r.context[CONFIRMATION];
      assert !Fires(policies, Forbid, base);
      assert HasFloor(policies) && Authorize(policies, approvalFlag, q => false, r) == Permitted;
    } else {
      forall policies | HasFloor(policies)
        ensures Authorize(policies, approvalFlag, q => false, r) != Permitted
      {
        ForbidFires(policies, approvalFlag, r);
      }
    }
  }

  /** What an unattended write gets instead: the floor's own permit answers the probe, so it needs
      approval unless some policy forbids even the confirmed call, or it cannot be evaluated. */
  lemma UnattendedWriteNeedsApproval(policies: map<string, Policy>, fails: Request -> bool, r: Request)
    requires HasFloor(policies) && "writes" in r.within && !Interactive(r)
    ensures Authorize(policies, CONFIRMATION, fails, r) == NeedsApproval <==>
              && !fails(Flagged(r, CONFIRMATION, false)) && !fails(Flagged(r, CONFIRMATION, true))
              && !Fires(policies, Forbid, Flagged(r, CONFIRMATION, true))
  {
    FloorIsSealed(policies, fails, r);
    ForbidFires(policies, CONFIRMATION, r);
    assert policies[WRITES_CONFIRM].applies(Flagged(r, CONFIRMATION, true)) == Satisfied;
  }

  // ---- the decision and the floor alone, in words ----

  /** THE DECISION. A call is permitted if it is allowed as not confirmed, whatever its context said of that, and needs
      approval if it is not but would be as confirmed; an evaluation that cannot be made denies. */
  lemma DecidesOnBothReadings(policies: map<string, Policy>, fails: Request -> bool, r: Request)
    ensures var unconfirmed := r.(context := r.context["confirmationUsed" := Bool(false)]);
            var confirmed := r.(context := r.context["confirmationUsed" := Bool(true)]);
            && (Authorize(policies, CONFIRMATION, fails, r) == Permitted <==> !fails(unconfirmed) && Allows(policies, unconfirmed))
            && (Authorize(policies, CONFIRMATION, fails, r) == NeedsApproval <==>
                  !fails(unconfirmed) && !Allows(policies, unconfirmed) && !fails(confirmed) && Allows(policies, confirmed))
  {
  }

  predicate IsInteractive(r: Request) {
    "runMode" in r.context && r.context["runMode"] == Text("interactive")
  }

  lemma FloorFires(r: Request)
    ensures Fires(Floor(), Permit, r) <==> "reads" in r.within || ("writes" in r.within && CONFIRMATION in r.context && r.context[CONFIRMATION] == Bool(true))
    ensures CONFIRMATION in r.context && r.context[CONFIRMATION].Bool? ==>
              (Fires(Floor(), Forbid, r) <==> "writes" in r.within && r.context[CONFIRMATION] == Bool(false) && !IsInteractive(r))
  {
    var floor := Floor();
    assert floor[READS_RUN].applies(r) == Satisfied <==> "reads" in r.within;
    assert floor[WRITES_CONFIRM].applies(r) == Satisfied <==> "writes" in r.within && CONFIRMATION in r.context && r.context[CONFIRMATION] == Bool(true);
    assert floor[WRITE_FORBIDDEN].applies(r) == Satisfied <==>
             "writes" in r.within && !(CONFIRMATION in r.context && r.context[CONFIRMATION] != Bool(false)) && !IsInteractive(r);
  }

  /** THE FLOOR ALONE. Reads run, but for one that is also a write outside an interactive run; every other write needs
      approval; and what is neither is denied. */
  lemma FloorDecides(r: Request)
    ensures var decision := Authorize(Floor(), CONFIRMATION, q => false, r); var isRead, isWrite := "reads" in r.within, "writes" in r.within;
            decision == if isRead && (!isWrite || IsInteractive(r)) then Permitted else if isWrite then NeedsApproval else Denied
  {
    FloorFires(Flagged(r, CONFIRMATION, false));
    FloorFires(Flagged(r, CONFIRMATION, true));
  }
}
