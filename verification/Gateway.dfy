/** The gateway protocol: read the device, decide, apply, answer. */
module Gateway {
  import opened Prelude
  import opened Evidence
  import opened Package
  import opened Device

  datatype GatewayResponse = GatewayResponse(
    gatewayRole: Role,
    decision: Decision,
    reasonCode: string,
    packageId: string,
    firmwareVersion: string,
    payloadSha256: string,
    signerFingerprint: string,
    before: Document,
    after: Document)

  /** What an apply request can come back with; a failed one may or may not have reached the device. */
  datatype ApplyOutcome = Acknowledged | Unavailable(reached: bool) | Failed(reached: bool)

  predicate Reaches(o: ApplyOutcome) {
    o.Acknowledged? || o.reached
  }

  /** `_response`. */
  function Response(role: Role, r: PolicyResult, before: Document, after: Document): GatewayResponse {
    GatewayResponse(role, r.decision, ReasonText(r.reason), r.packageId, r.firmwareVersion, r.payloadSha256, r.signerFingerprint, before, after)
  }

  datatype Answer = Answer(status: int, response: GatewayResponse)

  function AnswerWith(role: Role, r: PolicyResult, before: Document, after: Document): Answer {
    Answer(HttpStatusFor(r.decision, r.reason), Response(role, r, before, after))
  }

  /** The answer when the device's state could not be read. */
  function Unreadable(role: Role): Answer {
    AnswerWith(role, BareResult(Error, DeviceUnavailable), map[], map[])
  }

  /** The answer given what was read, what the policy said, and how the apply went. */
  function Decided(role: Role, r: PolicyResult, read: DeviceState, outcome: ApplyOutcome, applied: DeviceState): Answer {
    var before := DumpState(read);
    if r.decision != Accepted then AnswerWith(role, r, before, before)
    else match outcome
    case Acknowledged => AnswerWith(role, r, before, DumpState(applied))
    case Unavailable(_) => AnswerWith(role, r.(decision := Error, reason := DeviceUnavailable), before, before)
    case Failed(_) => AnswerWith(role, r.(decision := Error, reason := DeviceApplyFailed), before, before)
  }

  function UpdateOf(r: PolicyResult): Update {
    Update(r.firmwareVersion, r.payloadSha256)
  }

  /** The device after the gateway has acted on a decision. */
  function AfterDecision(s: DeviceState, r: PolicyResult, outcome: ApplyOutcome): DeviceState {
    if r.decision == Accepted && Reaches(outcome) then Applied(s, UpdateOf(r)) else s
  }

  /* ---- What is answered, in the words of the wire ---- */

  /** Status, decision and reason of an answer, which names the package as the policy's result does. */
  predicate Says(a: Answer, role: Role, r: PolicyResult, status: int, decision: Decision, reason: string) {
    && a.status == status && a.response.decision == decision && a.response.reasonCode == reason
    && a.response.gatewayRole == role
    && a.response.packageId == r.packageId && a.response.firmwareVersion == r.firmwareVersion
    && a.response.payloadSha256 == r.payloadSha256 && a.response.signerFingerprint == r.signerFingerprint
  }

  predicate ShowsStates(a: Answer, before: Document, after: Document) {
    a.response.before == before && a.response.after == after
  }

  /**
    * `process_gateway_update`, with the applies of other clients that land between its read and
    * its apply.
    */
  method ProcessGatewayUpdate(
    device: VirtualDevice, role: Role, policy: Bytes -> PolicyResult, raw: Bytes,
    readable: bool, between: seq<Update>, outcome: ApplyOutcome) returns (answer: Answer)
    modifies device
    ensures !readable ==> answer == Unreadable(role) && device.State() == old(device.State())
    ensures readable ==>
              var s := AppliedAll(old(device.State()), between);
              && answer == Decided(role, policy(raw), old(device.State()), outcome, Applied(s, UpdateOf(policy(raw))))
              && device.State() == AfterDecision(s, policy(raw), outcome)
    ensures !readable ==>
              Says(answer, role, PolicyResult(Error, DeviceUnavailable, "", "", "", ""), 502, Error, "DEVICE_UNAVAILABLE")
              && ShowsStates(answer, map[], map[])
    ensures readable && policy(raw).decision != Accepted ==>
              var r := policy(raw);
              && Says(answer, role, r, HttpStatusFor(r.decision, r.reason), r.decision, ReasonText(r.reason))
              && ShowsStates(answer, DumpState(old(device.State())), DumpState(old(device.State())))
              && device.State() == AppliedAll(old(device.State()), between)
    ensures readable && policy(raw).decision == Accepted ==>
              var s := AppliedAll(old(device.State()), between);
              && Says(answer, role, policy(raw), if outcome.Acknowledged? then 200 else 502,
                      if outcome.Acknowledged? then Accepted else Error,
                      match outcome case Acknowledged => ReasonText(policy(raw).reason)
                      case Unavailable(_) => "DEVICE_UNAVAILABLE" case Failed(_) => "DEVICE_APPLY_FAILED")
              && ShowsStates(answer, DumpState(old(device.State())),
                             DumpState(if outcome.Acknowledged? then device.State() else old(device.State())))
              && device.State() == if outcome.Acknowledged? || outcome.reached
                                   then DeviceState(policy(raw).firmwareVersion, s.updateCounter + 1, Some(policy(raw).payloadSha256))
                                   else s
  {
    if !readable {
      return Unreadable(role);
    }
    var before := DumpState(device.State());
    var result := policy(raw);
    device.Interfere(between);
    if result.decision != Accepted {
      return AnswerWith(role, result, before, before);
    }
    var after := device.State();
    if Reaches(outcome) {
      after := device.Apply(UpdateOf(result));
    }
    match outcome
    case Acknowledged =>
      answer := AnswerWith(role, result, before, DumpState(after));
    case Unavailable(_) =>
      answer := AnswerWith(role, result.(decision := Error, reason := DeviceUnavailable), before, before);
    case Failed(_) =>
      answer := AnswerWith(role, result.(decision := Error, reason := DeviceApplyFailed), before, before);
  }
}
