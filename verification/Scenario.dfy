/** One scenario as a system of steps: the orchestrator, the gateway, and everybody else. */
module Scenario {
  import opened Prelude
  import opened Evidence
  import opened Library
  import opened Package
  import opened Device
  import opened Gateway
  import opened Verdicts

  datatype ScenarioDefinition = ScenarioDefinition(
    role: Role,
    buildId: string,
    packageBytes: Bytes,
    package: DecodedPackage,
    bundlePath: string,
    signerTrust: SignerTrust,
    secureExpectedDecision: Decision)

  /** A gateway's HTTP reply; its body parses as a gateway response or it does not. */
  datatype HttpReply = HttpReply(status: int, body: Bytes, parsed: Option<GatewayResponse>)

  /* ---- What is recorded ---- */

  /** `model_dump(mode="json")` of a gateway response. */
  function DumpResponse(g: GatewayResponse): Document {
    map["gateway_role" := JString(if g.gatewayRole == Vulnerable then "VULNERABLE" else "PATCHED"),
        "decision" := JString(DecisionText(g.decision)),
        "reason_code" := JString(g.reasonCode),
        "package_id" := JString(g.packageId),
        "firmware_version" := JString(g.firmwareVersion),
        "payload_sha256" := JString(g.payloadSha256),
        "signer_fingerprint" := JString(g.signerFingerprint),
        "device_state_before" := JObject(g.before),
        "device_state_after" := JObject(g.after)]
  }

  datatype Observation = Observation(decision: Decision, reason: string, document: Document)

  predicate Reports(d: Document, s: DeviceState) {
    PyEqual(JObject(d), JObject(DumpState(s)))
  }

  /** A dump agrees with a state when its three fields do; the counter may be any number equal to it. */
  lemma ReportsExactly(d: Document, s: DeviceState)
    ensures Reports(d, s) <==>
            && d.Keys == {"firmware_version", "update_counter", "last_payload_sha256"}
            && d["firmware_version"] == JString(s.firmwareVersion)
            && Numeric(d["update_counter"]) == Some(s.updateCounter as real)
            && d["last_payload_sha256"] == match s.lastPayload { case None => JNull case Some(p) => JString(p) }
  {
    var e := DumpState(s);
    if d.Keys == e.Keys {
      SameText(d["firmware_version"], s.firmwareVersion);
      SamePayload(d["last_payload_sha256"], s.lastPayload);
      assert PyEqual(d["update_counter"], e["update_counter"]) <==> Numeric(d["update_counter"]) == Some(s.updateCounter as real);
      assert Reports(d, s) <==>
             && PyEqual(d["firmware_version"], e["firmware_version"]) && PyEqual(d["update_counter"], e["update_counter"])
             && PyEqual(d["last_payload_sha256"], e["last_payload_sha256"]) by {
        hide PyEqual;
        ObjectsEqual(d, e);
        assert forall k :: k in d <==> k in {"firmware_version", "update_counter", "last_payload_sha256"};
      }
    } else {
      ObjectsEqual(d, e);
    }
  }

  lemma ObjectsEqual(d: Document, e: Document)
    ensures PyEqual(JObject(d), JObject(e)) <==> d.Keys == e.Keys && forall k | k in d :: PyEqual(d[k], e[k])
  {
  }

  lemma SameText(j: Json, text: string)
    ensures PyEqual(j, JString(text)) <==> j == JString(text)
  {
  }

  lemma SamePayload(j: Json, p: Option<string>)
    ensures PyEqual(j, if p.None? then JNull else JString(p.value)) <==> j == match p { case None => JNull case Some(t) => JString(t) }
  {
  }

  /** Lines 164 to 185 of the orchestrator: the reply as recorded, and the decision drawn from it. */
  function Observe(before: DeviceState, reply: HttpReply, after: DeviceState): Observation {
    match reply.parsed
    case None => Observation(Error, "MALFORMED_RESPONSE", map["malformed_response" := JBool(true)])
    case Some(g) =>
      if !Reports(g.before, before) || !Reports(g.after, after) then
        Observation(Error, "CONFLICTING_OBSERVATION", DumpResponse(g))
      else
        Observation(g.decision, g.reasonCode, DumpResponse(g))
  }

  datatype ScenarioCapture = ScenarioCapture(
    definition: ScenarioDefinition,
    executionId: string,
    startedAt: string,
    finishedAt: string,
    resetConfirmed: bool,
    requestBodySha256: string,
    response: ResponseEvidence,
    gatewayResponse: Document,
    before: DeviceState,
    after: DeviceState)

  datatype Stamps = Stamps(executionId: string, startedAt: string, finishedAt: string)

  datatype RunError = VerificationError | RecordRefused

  predicate InitialConfirmed(s: DeviceState) {
    s.firmwareVersion == "1.0.0" && s.updateCounter == 0 && s.lastPayload.None?
  }

  function Capture(f: Functions, d: ScenarioDefinition, stamps: Stamps, before: DeviceState, reply: HttpReply, after: DeviceState)
    : Result<ScenarioCapture, RunError>
  {
    var o := Observe(before, reply, after);
    var response := ResponseEvidence(reply.status, o.decision, o.reason, f.sha256(reply.body));
    if !ValidResponse(response) then Err(RecordRefused)
    else Ok(ScenarioCapture(d, stamps.executionId, stamps.startedAt, stamps.finishedAt, InitialConfirmed(before),
                            f.sha256(d.packageBytes), response, o.document, before, after))
  }

  /** Every field of a reply is recorded under its name. */
  lemma DumpedReply(g: GatewayResponse)
    ensures var d := DumpResponse(g);
            && d.Keys == {"gateway_role", "decision", "reason_code", "package_id", "firmware_version", "payload_sha256",
                          "signer_fingerprint", "device_state_before", "device_state_after"}
            && d["decision"] == JString(match g.decision case Accepted => "ACCEPTED" case Rejected => "REJECTED" case Error => "ERROR")
            && d["reason_code"] == JString(g.reasonCode) && d["package_id"] == JString(g.packageId)
            && d["gateway_role"] == JString(if g.gatewayRole == Vulnerable then "VULNERABLE" else "PATCHED")
            && d["firmware_version"] == JString(g.firmwareVersion) && d["payload_sha256"] == JString(g.payloadSha256)
            && d["signer_fingerprint"] == JString(g.signerFingerprint)
            && d["device_state_before"] == JObject(g.before) && d["device_state_after"] == JObject(g.after)
  {
  }

  /** What is captured, from what was sent, read and received. */
  lemma CaptureExactly(f: Functions, d: ScenarioDefinition, stamps: Stamps, before: DeviceState, reply: HttpReply, after: DeviceState)
    requires Capture(f, d, stamps, before, reply, after).Ok?
    ensures var c := Capture(f, d, stamps, before, reply, after).value;
            && c.definition == d && c.before == before && c.after == after
            && c.executionId == stamps.executionId && c.startedAt == stamps.startedAt && c.finishedAt == stamps.finishedAt
            && c.requestBodySha256 == f.sha256(d.packageBytes)
            && c.response.httpStatus == reply.status && c.response.bodySha256 == f.sha256(reply.body)
            && (c.resetConfirmed <==> before == DeviceState("1.0.0", 0, None))
            && match reply.parsed
               case None =>
                 && c.response.decision == Error && c.response.reasonCode == "MALFORMED_RESPONSE"
                 && c.gatewayResponse == map["malformed_response" := JBool(true)]
               case Some(g) =>
                 var agrees := PyEqual(JObject(g.before), JObject(DumpState(before))) && PyEqual(JObject(g.after), JObject(DumpState(after)));
                 && c.response.decision == (if agrees then g.decision else Error)
                 && c.response.reasonCode == (if agrees then g.reasonCode else "CONFLICTING_OBSERVATION")
                 && c.gatewayResponse == DumpResponse(g)
  {
    hide PyEqual, DumpState, DumpResponse;
  }

  /** The execution record a capture becomes, before its raw artifact is attached. */
  function ExecutionOf(f: Functions, c: ScenarioCapture, artifacts: seq<ArtifactRecord>): ExecutionEvidence {
    var d := c.definition;
    var x := ExecutionEvidence(
      c.executionId, d.role, d.buildId, c.startedAt, c.finishedAt,
      PackageEvidence(d.bundlePath, d.package.envelope.manifest.payloadSha256, f.sha256(d.packageBytes),
                      d.package.envelope.signerFingerprint, d.signerTrust),
      c.requestBodySha256, c.response, c.before, c.after,
      d.secureExpectedDecision, c.response.decision, NoVerdict, artifacts);
    x.(securityVerdict := IndividualVerdict(x))
  }

  /* ---- Steps ---- */

  datatype Phase =
    | Start
    | Waiting(before: DeviceState)
    | Answered(before: DeviceState, reply: HttpReply)
    | Done(before: DeviceState, reply: HttpReply, after: DeviceState)
    | Aborted

  /** How far the gateway got; the last three remember why it answered as it did. */
  datatype GatewayPhase =
    | Idle
    | HasRead(state: DeviceState)
    | Refused(state: DeviceState)
    | Confirmed(state: DeviceState)
    | GaveUp

  /** `foreign` counts the applies of other clients between the reset and the final read. */
  datatype World = World(device: DeviceState, phase: Phase, gateway: GatewayPhase, foreign: nat)

  datatype Event =
    | Reset
    | ForeignApply(update: Update)
    | ForeignReset
    | GatewayRead
    | GatewayReadFails(body: Bytes)
    | GatewayDecides(outcome: ApplyOutcome, body: Bytes)
    | ArbitraryReply(reply: HttpReply)
    | FinalRead
    | RequestFails

  /** Who answers, and by which policy. */
  datatype Target = Target(role: Role, result: PolicyResult)

  function Replied(a: Answer, body: Bytes): HttpReply {
    HttpReply(a.status, body, Some(a.response))
  }

  /** One atomic step; an event whose turn it is not changes nothing. */
  function Step(t: Target, w: World, e: Event): World {
    match e
    case Reset =>
      if w.phase.Start? then World(INITIAL_STATE, Waiting(INITIAL_STATE), Idle, 0) else w
    case ForeignApply(u) =>
      w.(device := Applied(w.device, u), foreign := if w.phase.Waiting? || w.phase.Answered? then w.foreign + 1 else w.foreign)
    case ForeignReset =>
      w.(device := INITIAL_STATE)
    case GatewayRead =>
      if w.phase.Waiting? && w.gateway.Idle? then w.(gateway := HasRead(w.device)) else w
    case GatewayReadFails(body) =>
      if w.phase.Waiting? && w.gateway.Idle? then
        w.(gateway := GaveUp, phase := Answered(w.phase.before, Replied(Unreadable(t.role), body)))
      else w
    case GatewayDecides(outcome, body) =>
      if w.phase.Waiting? && w.gateway.HasRead? then
        var answer := Decided(t.role, t.result, w.gateway.state, outcome, Applied(w.device, UpdateOf(t.result)));
        w.(device := AfterDecision(w.device, t.result, outcome),
           gateway := if t.result.decision != Accepted then Refused(w.gateway.state)
                      else if outcome.Acknowledged? then Confirmed(w.gateway.state) else GaveUp,
           phase := Answered(w.phase.before, Replied(answer, body)))
      else w
    case ArbitraryReply(reply) =>
      if w.phase.Waiting? then w.(gateway := GaveUp, phase := Answered(w.phase.before, reply)) else w
    case FinalRead =>
      if w.phase.Answered? then w.(phase := Done(w.phase.before, w.phase.reply, w.device)) else w
    case RequestFails =>
      if w.phase.Done? then w else w.(phase := Aborted)
  }

  function Run(t: Target, w: World, events: seq<Event>): World
    decreases |events|
  {
    if events == [] then w else Run(t, Step(t, w, events[0]), events[1..])
  }

  function StartWorld(s: DeviceState): World {
    World(s, Start, Idle, 0)
  }

  lemma {:induction false} RunAppend(t: Target, w: World, a: seq<Event>, b: seq<Event>)
    ensures Run(t, w, a + b) == Run(t, Run(t, w, a), b)
    decreases |a|
  {
    if a == [] {
      assert a + b == b;
    } else {
      assert (a + b)[1..] == a[1..] + b;
      RunAppend(t, Step(t, w, a[0]), a[1..], b);
    }
  }

  /* ---- Interference with an honest gateway ---- */

  /** Between the scenario's reset and its final read nobody else resets, and nobody forges the reply. */
  predicate HonestIn(w: World, e: Event) {
    && (e.ForeignReset? ==> !w.phase.Waiting? && !w.phase.Answered?)
    && (e.ArbitraryReply? ==> !w.phase.Waiting?)
  }

  predicate HonestSchedule(t: Target, w: World, events: seq<Event>)
    decreases |events|
  {
    events == [] || (HonestIn(w, events[0]) && HonestSchedule(t, Step(t, w, events[0]), events[1..]))
  }

  /** A state the device has reached from the reset by `n` applies. */
  predicate Aged(s: DeviceState, n: nat) {
    s.updateCounter == n && (n == 0 ==> s == INITIAL_STATE)
  }

  /** What an honest gateway's reply says, and where the device stands, after `foreign` applies of others. */
  predicate HonestlyAnswered(w: World, reply: HttpReply, device: DeviceState) {
    reply.parsed.Some? &&
    var g := reply.parsed.value;
    match w.gateway
    case GaveUp => g.decision == Error
    case Refused(s) =>
      && g.decision != Accepted
      && g.before == g.after == DumpState(s)
      && device.updateCounter == w.foreign
    case Confirmed(s) =>
      && g.decision == Accepted
      && g.before == DumpState(s)
      && device.updateCounter == w.foreign + 1
    case _ => false
  }

  /** Holds in every state an honest scenario reaches. */
  predicate Invariant(w: World) {
    match w.phase
    case Start => w.gateway.Idle?
    case Aborted => true
    case Waiting(before) =>
      && before == INITIAL_STATE && Aged(w.device, w.foreign)
      && (w.gateway.Idle? || w.gateway.HasRead?)
    case Answered(before, reply) => before == INITIAL_STATE && HonestlyAnswered(w, reply, w.device)
    case Done(before, reply, after) => before == INITIAL_STATE && HonestlyAnswered(w, reply, after)
  }

  lemma StepKeepsInvariant(t: Target, w: World, e: Event)
    requires Invariant(w) && HonestIn(w, e)
    ensures Invariant(Step(t, w, e))
  {
    hide DumpState, ReasonText, HttpStatusFor;
  }

  lemma {:induction false} RunKeepsInvariant(t: Target, w: World, events: seq<Event>)
    requires Invariant(w)
    requires HonestSchedule(t, w, events)
    ensures Invariant(Run(t, w, events))
    decreases |events|
  {
    if events != [] {
      StepKeepsInvariant(t, w, events[0]);
      RunKeepsInvariant(t, Step(t, w, events[0]), events[1..]);
    }
  }

  /** The foreign applies of every honest schedule leave a mark no verdict survives. */
  lemma InterferenceObserved(f: Functions, w: World, d: ScenarioDefinition, stamps: Stamps, artifacts: seq<ArtifactRecord>)
    requires Invariant(w) && w.phase.Done? && (w.foreign >= 1 || w.gateway.GaveUp?)
    ensures var c := Capture(f, d, stamps, w.phase.before, w.phase.reply, w.phase.after);
            c.Ok? ==> IndividualVerdict(ExecutionOf(f, c.value, artifacts)) == NoVerdict
  {
    var g := w.phase.reply.parsed.value;
    if w.gateway.Refused? {
      DumpsEqual(w.gateway.state, w.phase.before);
      DumpsEqual(w.gateway.state, w.phase.after);
    }
    hide DumpState, DumpResponse, PyEqual;
  }

  lemma NoVerdictIsInconclusive(xs: seq<ExecutionEvidence>, x: ExecutionEvidence)
    requires x in xs && IndividualVerdict(x) == NoVerdict
    ensures VerificationOutcome(xs) == Inconclusive
  {
    hide IndividualVerdict;
  }

  /**
    * Whatever the schedule of an honest gateway's read and apply, and whatever faults it meets: if
    * other clients applied anything between the reset and the final read, the execution has no
    * verdict and no list it is part of is conclusive. The same holds when the gateway lost the
    * device, in particular when an apply was made whose acknowledgement never arrived.
    */
  lemma InterferenceDetected(
    f: Functions, t: Target, s: DeviceState, events: seq<Event>, d: ScenarioDefinition, stamps: Stamps,
    artifacts: seq<ArtifactRecord>, xs: seq<ExecutionEvidence>)
    requires HonestSchedule(t, StartWorld(s), events)
    requires var w := Run(t, StartWorld(s), events);
             && w.phase.Done? && (w.foreign >= 1 || w.gateway.GaveUp?)
             && Capture(f, d, stamps, w.phase.before, w.phase.reply, w.phase.after).Ok?
    ensures var w := Run(t, StartWorld(s), events);
            var x := ExecutionOf(f, Capture(f, d, stamps, w.phase.before, w.phase.reply, w.phase.after).value, artifacts);
            && x.securityVerdict == NoVerdict
            && (x in xs ==> VerificationOutcome(xs) == Inconclusive)
  {
    hide *;
    var w := Run(t, StartWorld(s), events);
    var c := Capture(f, d, stamps, w.phase.before, w.phase.reply, w.phase.after).value;
    var x := ExecutionOf(f, c, artifacts);
    StartInvariant(s);
    RunKeepsInvariant(t, StartWorld(s), events);
    InterferenceObserved(f, w, d, stamps, artifacts);
    StoredVerdictIsRecomputed(f, c, artifacts);
    if x in xs {
      NoVerdictIsInconclusive(xs, x);
    }
  }

  lemma StartInvariant(s: DeviceState)
    ensures Invariant(StartWorld(s))
  {
  }

  lemma StoredVerdictIsRecomputed(f: Functions, c: ScenarioCapture, artifacts: seq<ArtifactRecord>)
    ensures var x := ExecutionOf(f, c, artifacts); x.securityVerdict == IndividualVerdict(x)
  {
  }

  /* ---- Arbitrary gateways ---- */

  /** The device stood in state `s` when the orchestrator read it after the reply. */
  ghost predicate EndedIn(t: Target, w: World, events: seq<Event>, s: DeviceState) {
    exists n :: 0 <= n < |events| && events[n] == FinalRead && EndsAt(t, w, events, n, s)
  }

  predicate EndsAt(t: Target, w: World, events: seq<Event>, n: nat, s: DeviceState)
    requires n < |events|
  {
    var at := Run(t, w, events[..n]);
    at.phase.Answered? && at.device == s
  }

  predicate Unfinished(p: Phase) {
    p.Start? || (p.Waiting? && p.before == INITIAL_STATE) || (p.Answered? && p.before == INITIAL_STATE) || p.Aborted?
  }

  lemma {:induction false} RecordIsTruthful(t: Target, w: World, events: seq<Event>)
    requires Unfinished(w.phase) && Run(t, w, events).phase.Done?
    ensures Run(t, w, events).phase.before == INITIAL_STATE
    ensures EndedIn(t, w, events, Run(t, w, events).phase.after)
    decreases |events|
  {
    hide Decided, AfterDecision, Unreadable;
    var next := Step(t, w, events[0]);
    var after := Run(t, w, events).phase.after;
    if next.phase.Done? {
      DoneStays(t, next, events[1..]);
      assert events[..0] == [];
      assert EndsAt(t, w, events, 0, after);
    } else {
      RecordIsTruthful(t, next, events[1..]);
      var n :| 0 <= n < |events[1..]| && events[1..][n] == FinalRead && EndsAt(t, next, events[1..], n, after);
      assert events[..n + 1] == [events[0]] + events[1..][..n];
      assert events[..n + 1][1..] == events[1..][..n];
      assert EndsAt(t, w, events, n + 1, after);
    }
  }

  lemma {:induction false} DoneStays(t: Target, w: World, events: seq<Event>)
    requires w.phase.Done?
    ensures Run(t, w, events).phase == w.phase
    decreases |events|
  {
    if events != [] {
      DoneStays(t, Step(t, w, events[0]), events[1..]);
    }
  }

  /** A reply that misreports the state before or after, or is no reply at all, has no verdict. */
  lemma MisreportDetected(
    f: Functions, d: ScenarioDefinition, stamps: Stamps, before: DeviceState, reply: HttpReply, after: DeviceState,
    artifacts: seq<ArtifactRecord>, xs: seq<ExecutionEvidence>)
    requires Capture(f, d, stamps, before, reply, after).Ok?
    requires reply.parsed.None? || !Reports(reply.parsed.value.before, before) || !Reports(reply.parsed.value.after, after)
    ensures var x := ExecutionOf(f, Capture(f, d, stamps, before, reply, after).value, artifacts);
            && x.securityVerdict == NoVerdict
            && (x in xs ==> VerificationOutcome(xs) == Inconclusive)
  {
    var c := Capture(f, d, stamps, before, reply, after).value;
    var x := ExecutionOf(f, c, artifacts);
    assert x.observedDecision == Error;
    assert IndividualVerdict(x) == NoVerdict;
    if x in xs {
      NoVerdictIsInconclusive(xs, x);
    }
  }

  /* ---- The orchestrator's own run of a scenario ---- */

  /** Which of the orchestrator's three requests fails, if one does. */
  datatype Loss = NoLoss | LostReset | LostPost | LostRead

  /** Everything that is not the orchestrator's choice: other clients, faults, and body bytes. */
  datatype Script = Script(
    afterReset: seq<Update>,
    readable: bool,
    between: seq<Update>,
    outcome: ApplyOutcome,
    body: Bytes,
    beforeFinalRead: seq<Update>,
    loss: Loss)

  function Foreign(us: seq<Update>): seq<Event> {
    seq(|us|, i requires 0 <= i < |us| => ForeignApply(us[i]))
  }

  function GatewayEvents(script: Script): seq<Event> {
    if script.readable then
      [GatewayRead] + Foreign(script.between) + [GatewayDecides(script.outcome, script.body)]
    else
      [GatewayReadFails(script.body)]
  }

  /** The schedule one script stands for. */
  function Schedule(script: Script): seq<Event> {
    if script.loss == LostReset then [RequestFails]
    else
      var posted := [Reset] + Foreign(script.afterReset) + GatewayEvents(script);
      if script.loss == LostPost then posted + [RequestFails]
      else posted + Foreign(script.beforeFinalRead) + [if script.loss == LostRead then RequestFails else FinalRead]
  }

  lemma {:induction false} RunForeign(t: Target, w: World, us: seq<Update>)
    ensures Run(t, w, Foreign(us)) ==
            w.(device := AppliedAll(w.device, us),
               foreign := if w.phase.Waiting? || w.phase.Answered? then w.foreign + |us| else w.foreign)
    decreases |us|
  {
    if us != [] {
      assert Foreign(us)[1..] == Foreign(us[1..]);
      RunForeign(t, Step(t, w, ForeignApply(us[0])), us[1..]);
    }
  }

  lemma RunOne(t: Target, w: World, e: Event)
    ensures Run(t, w, [e]) == Step(t, w, e)
  {
    assert [e][1..] == [];
  }

  lemma RunGateway(t: Target, w: World, script: Script)
    requires w.phase.Waiting? && w.gateway.Idle?
    ensures var end := Run(t, w, GatewayEvents(script));
            && end.phase.Answered? && end.phase.before == w.phase.before
            && (!script.readable ==>
                  end.device == w.device && end.phase.reply == Replied(Unreadable(t.role), script.body)
                  && end.foreign == w.foreign)
            && (script.readable ==>
                  var s := AppliedAll(w.device, script.between);
                  && end.device == AfterDecision(s, t.result, script.outcome)
                  && end.foreign == w.foreign + |script.between|
                  && end.phase.reply ==
                     Replied(Decided(t.role, t.result, w.device, script.outcome, Applied(s, UpdateOf(t.result))), script.body))
  {
    hide Decided, AfterDecision, Unreadable, Applied, AppliedAll;
    if script.readable {
      var decide := GatewayDecides(script.outcome, script.body);
      var w1 := Step(t, w, GatewayRead);
      RunAppend(t, w, [GatewayRead] + Foreign(script.between), [decide]);
      RunAppend(t, w, [GatewayRead], Foreign(script.between));
      RunOne(t, w, GatewayRead);
      RunForeign(t, w1, script.between);
      RunOne(t, Run(t, w1, Foreign(script.between)), decide);
    } else {
      RunOne(t, w, GatewayReadFails(script.body));
    }
  }

  /** The world when the gateway's reply arrives. */
  function AnsweredWorld(t: Target, s: DeviceState, script: Script): World {
    Run(t, Run(t, Step(t, StartWorld(s), Reset), Foreign(script.afterReset)), GatewayEvents(script))
  }

  /** A lost reset ends the scenario at once; every other script gets an answer, and what follows it depends on the loss. */
  lemma RunSchedule(t: Target, s: DeviceState, script: Script)
    ensures script.loss == LostReset ==> Run(t, StartWorld(s), Schedule(script)) == Step(t, StartWorld(s), RequestFails)
    ensures script.loss != LostReset ==>
            var a := AnsweredWorld(t, s, script);
            && a.phase.Answered? && a.phase.before == INITIAL_STATE
            && Run(t, StartWorld(s), Schedule(script)) ==
               if script.loss == LostPost then Step(t, a, RequestFails)
               else Step(t, Run(t, a, Foreign(script.beforeFinalRead)), if script.loss == LostRead then RequestFails else FinalRead)
  {
    hide Foreign, GatewayEvents, AppliedAll;
    var w0 := StartWorld(s);
    if script.loss == LostReset {
      RunOne(t, w0, RequestFails);
      return;
    }
    var first, gateway, late := Foreign(script.afterReset), GatewayEvents(script), Foreign(script.beforeFinalRead);
    var a := AnsweredWorld(t, s, script);
    RunOne(t, w0, Reset);
    RunAppend(t, w0, [Reset], first);
    RunAppend(t, w0, [Reset] + first, gateway);
    RunForeign(t, Step(t, w0, Reset), script.afterReset);
    RunGateway(t, Run(t, Step(t, w0, Reset), first), script);
    var posted := [Reset] + first + gateway;
    assert Run(t, w0, posted) == a;
    if script.loss == LostPost {
      RunAppend(t, w0, posted, [RequestFails]);
      RunOne(t, a, RequestFails);
    } else {
      var last := if script.loss == LostRead then RequestFails else FinalRead;
      RunAppend(t, w0, posted + late, [last]);
      RunAppend(t, w0, posted, late);
      RunOne(t, Run(t, a, late), last);
    }
  }

  lemma RunScheduleForeign(t: Target, s: DeviceState, script: Script)
    requires script.loss != LostReset
    ensures var a := AnsweredWorld(t, s, script);
            && a.phase.Answered?
            && Run(t, a, Foreign(script.beforeFinalRead)).device == AppliedAll(a.device, script.beforeFinalRead)
            && Run(t, a, Foreign(script.beforeFinalRead)).phase == a.phase
  {
    RunSchedule(t, s, script);
    RunForeign(t, AnsweredWorld(t, s, script), script.beforeFinalRead);
  }

  /** What a finished or aborted scenario hands to the orchestrator. */
  function CaptureOf(f: Functions, d: ScenarioDefinition, stamps: Stamps, w: World): Result<ScenarioCapture, RunError> {
    if w.phase.Done? then Capture(f, d, stamps, w.phase.before, w.phase.reply, w.phase.after) else Err(VerificationError)
  }

  function TargetOf(d: ScenarioDefinition, gatewayRole: Role, policy: Bytes -> PolicyResult): Target {
    Target(gatewayRole, policy(d.packageBytes))
  }

  /** `_execute_scenario`: exactly the run of its schedule, on the device and in the capture. */
  method ExecuteScenario(
    f: Functions, device: VirtualDevice, d: ScenarioDefinition, gatewayRole: Role, policy: Bytes -> PolicyResult,
    stamps: Stamps, script: Script) returns (r: Result<ScenarioCapture, RunError>)
    modifies device
    ensures var w := Run(TargetOf(d, gatewayRole, policy), StartWorld(old(device.State())), Schedule(script));
            device.State() == w.device && r == CaptureOf(f, d, stamps, w)
    ensures script.loss != NoLoss ==> r == Err(VerificationError)
    ensures script.loss == NoLoss && r.Err? ==> r.error == RecordRefused
    ensures r.Ok? ==>
              && r.value.definition == d && r.value.executionId == stamps.executionId
              && r.value.before == DeviceState("1.0.0", 0, None) && r.value.after == device.State()
  {
    hide AppliedAll, Decided, AfterDecision, Unreadable, Observe, DumpResponse, DumpState;
    ghost var t := TargetOf(d, gatewayRole, policy);
    ghost var start := device.State();
    RunSchedule(t, start, script);
    if script.loss == LostReset {
      return Err(VerificationError);
    }
    RunScheduleForeign(t, start, script);
    var before := device.Reset();
    device.Interfere(script.afterReset);
    ghost var w := Run(t, Step(t, StartWorld(start), Reset), Foreign(script.afterReset));
    RunForeign(t, Step(t, StartWorld(start), Reset), script.afterReset);
    RunGateway(t, w, script);
    var answer := ProcessGatewayUpdate(device, gatewayRole, policy, d.packageBytes, script.readable, script.between, script.outcome);
    if script.loss == LostPost {
      return Err(VerificationError);
    }
    var reply := Replied(answer, script.body);
    device.Interfere(script.beforeFinalRead);
    if script.loss == LostRead {
      return Err(VerificationError);
    }
    var after := device.State();
    r := Capture(f, d, stamps, before, reply, after);
  }
}
