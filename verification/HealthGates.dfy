/**
 The agent's and the runtime's validators of the signed local health-gate plan and of its results, over
 arbitrary JSON values (edge/agent/security_core.py, `_validate_local_health_gate_plan`,
 `_validate_health_gate_results`; edge/runtime/contracts.py, `validate_local_health_gate_plan`,
 `validate_local_health_gate_results`).
 */
module HealthGates {
  import opened Options
  import opened JsonValues

  // ---------------------------------------------------------------- values

  predicate ExactObject(v: Json, fields: set<string>) {
    v.Object? && v.members.Keys == fields
  }

  predicate IdentifierChar(c: char) {
    'a' <= c <= 'z' || '0' <= c <= '9' || c in {'.', '_', ':', '-'}
  }

  predicate Identifier(s: string) {
    1 <= |s| <= 128 && ('a' <= s[0] <= 'z' || '0' <= s[0] <= '9') && forall i | 0 <= i < |s| :: IdentifierChar(s[i])
  }

  const GATE_FIELDS := {"allocationId", "gateId", "maxAttempts", "onFailure", "resourceRefs", "tenantContextId", "timeoutSeconds", "type"}
  const PLAN_FIELDS := {"apiVersion", "healthGates", "kind", "manifestDigest"}
  const RESULT_FIELDS := {"attemptsUsed", "gateId", "proofs", "status", "type"}
  const API_VERSION := "edge.vivolution.ae/local-health-plan/v0.1"
  const PLAN_KIND := "TenantLocalHealthGatePlan"

  // ---------------------------------------------------------------- the tables of either side

  const AGENT_ORDER: seq<string> := ["ARTIFACT_DIGESTS", "OPENSIPS_CONFIG", "RTPENGINE_READY"]

  /** Timeout and attempts of a gate the agent knows. */
  function AgentParameters(kind: string): Option<(int, int)> {
    if kind == "ARTIFACT_DIGESTS" then Some((30, 1))
    else if kind == "OPENSIPS_CONFIG" then Some((30, 1))
    else if kind == "RTPENGINE_READY" then Some((30, 3))
    else None
  }

  function AgentProofs(kind: string): seq<string> {
    if kind == "ARTIFACT_DIGESTS" then ["compiler-artifact-digests", "runtime-handoff-artifact-digests", "immutable-release-digests"]
    else if kind == "OPENSIPS_CONFIG" then
      ["opensips-offline-parse", "opensips-active-parse", "opensips-active-release-exact", "opensips-profile-routing-identity"]
    else if kind == "RTPENGINE_READY" then
      ["rtpengine-typed-config", "systemd-rtpengine-daemon", "rtpengine-ng-ping", "rtpengine-control-loopback",
       "rtpengine-active-config-exact", "rtpengine-profile-advertisement"]
    else []
  }

  const RUNTIME_ORDER: seq<string> := ["ARTIFACT_DIGESTS", "OPENSIPS_CONFIG", "RTPENGINE_READY"]

  /** Timeout and attempts of a gate the runtime knows. */
  function RuntimeParameters(kind: string): Option<(int, int)> {
    if kind == "ARTIFACT_DIGESTS" then Some((30, 1))
    else if kind == "OPENSIPS_CONFIG" then Some((30, 1))
    else if kind == "RTPENGINE_READY" then Some((30, 3))
    else None
  }

  function RuntimeProofs(kind: string): seq<string> {
    if kind == "ARTIFACT_DIGESTS" then ["compiler-artifact-digests", "runtime-handoff-artifact-digests", "immutable-release-digests"]
    else if kind == "OPENSIPS_CONFIG" then
      ["opensips-offline-parse", "opensips-active-parse", "opensips-active-release-exact", "opensips-profile-routing-identity"]
    else if kind == "RTPENGINE_READY" then
      ["rtpengine-typed-config", "systemd-rtpengine-daemon", "rtpengine-ng-ping", "rtpengine-control-loopback",
       "rtpengine-active-config-exact", "rtpengine-profile-advertisement"]
    else []
  }

  /** The two sides keep their tables apart, and alike. */
  lemma TablesCoincide(kind: string)
    ensures AGENT_ORDER == RUNTIME_ORDER && AgentParameters(kind) == RuntimeParameters(kind) && AgentProofs(kind) == RuntimeProofs(kind)
    ensures AgentParameters(kind).Some? <==> kind in AGENT_ORDER
  {
    if kind in AGENT_ORDER { assert kind == AGENT_ORDER[0] || kind == AGENT_ORDER[1] || kind == AGENT_ORDER[2]; }
    if AgentParameters(kind).Some? { assert AGENT_ORDER[0] in AGENT_ORDER && AGENT_ORDER[1] in AGENT_ORDER && AGENT_ORDER[2] in AGENT_ORDER; }
  }

  /** The immutable identity both sides are given. */
  datatype Identity = Identity(tenantContextId: string, allocationId: string)

  datatype Gate = Gate(allocationId: string, id: string, maxAttempts: int, refs: seq<string>, tenantContextId: string, timeout: int, kind: string)

  datatype Plan = Plan(gates: seq<Gate>, manifestDigest: string)

  function Strings(items: seq<Json>): seq<string> {
    seq(|items|, i requires 0 <= i < |items| => if items[i].Str? then items[i].s else "")
  }

  predicate AcceptedRefs(v: Json) {
    && v.List? && 1 <= |v.items| <= 64
    && (forall i | 0 <= i < |v.items| :: v.items[i].Str? && Identifier(v.items[i].s))
    && forall i, j | 0 <= i < j < |v.items| :: v.items[i] != v.items[j]
  }

  // ---------------------------------------------------------------- one gate

  function AgentGate(raw: Json, local: Identity, seenIds: set<string>, seenKinds: set<string>): Option<Gate> {
    if !ExactObject(raw, GATE_FIELDS) then None
    else
      var g := raw.members;
      if !(g["gateId"].Str? && Identifier(g["gateId"].s)) || g["gateId"].s in seenIds then None
      else if !(g["type"].Str? && AgentParameters(g["type"].s).Some?) || g["type"].s in seenKinds then None
      else if g["tenantContextId"] != Str(local.tenantContextId) || g["allocationId"] != Str(local.allocationId) then None
      else if !AcceptedRefs(g["resourceRefs"]) then None
      else if !g["timeoutSeconds"].Int? || g["timeoutSeconds"].n != AgentParameters(g["type"].s).value.0
           || !g["maxAttempts"].Int? || g["maxAttempts"].n != AgentParameters(g["type"].s).value.1
           || g["onFailure"] != Str("ROLLBACK_TO_TARGET") then None
      else Some(Gate(g["allocationId"].s, g["gateId"].s, AgentParameters(g["type"].s).value.1, Strings(g["resourceRefs"].items), g["tenantContextId"].s,
                     AgentParameters(g["type"].s).value.0, g["type"].s))
  }

  function RuntimeGate(raw: Json, facts: Identity, seenIds: set<string>, seenKinds: set<string>): Option<Gate> {
    if !ExactObject(raw, GATE_FIELDS) then None
    else
      var g := raw.members;
      if !g["gateId"].Str? || !Identifier(g["gateId"].s) || g["gateId"].s in seenIds then None
      else if !g["type"].Str? || !RuntimeParameters(g["type"].s).Some? || g["type"].s in seenKinds then None
      else if g["tenantContextId"] != Str(facts.tenantContextId) || g["allocationId"] != Str(facts.allocationId) then None
      else if !AcceptedRefs(g["resourceRefs"]) then None
      else if g["timeoutSeconds"].Bool? || !Equals(g["timeoutSeconds"], Int(RuntimeParameters(g["type"].s).value.0))
           || g["maxAttempts"].Bool? || !Equals(g["maxAttempts"], Int(RuntimeParameters(g["type"].s).value.1))
           || g["onFailure"] != Str("ROLLBACK_TO_TARGET") then None
      else Some(Gate(facts.allocationId, g["gateId"].s, RuntimeParameters(g["type"].s).value.1, Strings(g["resourceRefs"].items), facts.tenantContextId,
                     RuntimeParameters(g["type"].s).value.0, g["type"].s))
  }

  /** Whether the two numbers of a gate are written as integers. */
  predicate IntegerNumbers(raw: Json) {
    raw.Object? && "timeoutSeconds" in raw.members && "maxAttempts" in raw.members
    && raw.members["timeoutSeconds"].Int? && raw.members["maxAttempts"].Int?
  }

  lemma GatesCoincide(raw: Json, who: Identity, seenIds: set<string>, seenKinds: set<string>)
    ensures AgentGate(raw, who, seenIds, seenKinds) == if IntegerNumbers(raw) then RuntimeGate(raw, who, seenIds, seenKinds) else None
  {
    if raw.Object? && "type" in raw.members && raw.members["type"].Str? { TablesCoincide(raw.members["type"].s); }
    hide AcceptedRefs, Identifier, Strings, AgentParameters, RuntimeParameters;
  }

  // ---------------------------------------------------------------- the gate list

  /** The gates that follow those already seen. */
  function AgentGates(raws: seq<Json>, local: Identity, seenIds: set<string>, seenKinds: set<string>): Option<seq<Gate>> {
    if raws == [] then Some([])
    else
      match AgentGate(raws[0], local, seenIds, seenKinds)
      case None => None
      case Some(g) =>
        match AgentGates(raws[1..], local, seenIds + {g.id}, seenKinds + {g.kind})
        case None => None
        case Some(rest) => Some([g] + rest)
  }

  function RuntimeGates(raws: seq<Json>, facts: Identity, seenIds: set<string>, seenKinds: set<string>): Option<seq<Gate>> {
    if raws == [] then Some([])
    else
      match RuntimeGate(raws[0], facts, seenIds, seenKinds)
      case None => None
      case Some(g) =>
        match RuntimeGates(raws[1..], facts, seenIds + {g.id}, seenKinds + {g.kind})
        case None => None
        case Some(rest) => Some([g] + rest)
  }

  predicate AllIntegers(raws: seq<Json>) {
    forall i | 0 <= i < |raws| :: IntegerNumbers(raws[i])
  }

  lemma {:induction false} GateListsCoincide(raws: seq<Json>, who: Identity, seenIds: set<string>, seenKinds: set<string>)
    ensures AgentGates(raws, who, seenIds, seenKinds) == if AllIntegers(raws) then RuntimeGates(raws, who, seenIds, seenKinds) else None
    decreases |raws|
  {
    hide AgentGate, RuntimeGate, IntegerNumbers;
    if raws != [] {
      GatesCoincide(raws[0], who, seenIds, seenKinds);
      assert AllIntegers(raws) <==> IntegerNumbers(raws[0]) && AllIntegers(raws[1..]) by {
        if IntegerNumbers(raws[0]) && AllIntegers(raws[1..]) {
          forall i | 0 <= i < |raws| ensures IntegerNumbers(raws[i]) { if i > 0 { assert raws[i] == raws[1..][i - 1]; } }
        }
      }
      hide AllIntegers;
      var gate := RuntimeGate(raws[0], who, seenIds, seenKinds);
      if gate.Some? {
        GateListsCoincide(raws[1..], who, seenIds + {gate.value.id}, seenKinds + {gate.value.kind});
      }
    }
  }

  function KindsOf(gates: seq<Gate>): seq<string> {
    seq(|gates|, i requires 0 <= i < |gates| => gates[i].kind)
  }

  predicate PlanShape(value: Json, digest: string) {
    && ExactObject(value, PLAN_FIELDS)
    && value.members["apiVersion"] == Str(API_VERSION) && value.members["kind"] == Str(PLAN_KIND)
    && value.members["manifestDigest"] == Str(digest)
    && value.members["healthGates"].List? && |value.members["healthGates"].items| == 3
  }

  function AgentPlan(value: Json, tenantScope: bool, local: Identity, digest: string): Option<Plan> {
    if !tenantScope || !PlanShape(value, digest) then None
    else
      match AgentGates(value.members["healthGates"].items, local, {}, {})
      case None => None
      case Some(gates) => if KindsOf(gates) == AGENT_ORDER then Some(Plan(gates, digest)) else None
  }

  function RuntimePlan(value: Json, facts: Identity, digest: string): Option<Plan> {
    if !PlanShape(value, digest) then None
    else
      match RuntimeGates(value.members["healthGates"].items, facts, {}, {})
      case None => None
      case Some(gates) => if KindsOf(gates) == RUNTIME_ORDER then Some(Plan(gates, digest)) else None
  }

  /** The agent's loop over the gates. */
  method AgentValidate(value: Json, tenantScope: bool, local: Identity, digest: string) returns (r: Option<Plan>)
    ensures r == AgentPlan(value, tenantScope, local, digest)
  {
    if !tenantScope || !PlanShape(value, digest) { return None; }
    hide AgentGate, KindsOf;
    var raws := value.members["healthGates"].items;
    var ids: set<string>, kinds: set<string>, checked: seq<Gate> := {}, {}, [];
    var i := 0;
    assert raws[0..] == raws;
    assert forall rest: seq<Gate> :: checked + rest == rest;
    while i < |raws|
      invariant i <= |raws|
      invariant AgentGates(raws, local, {}, {}) ==
        match AgentGates(raws[i..], local, ids, kinds) case None => None case Some(rest) => Some(checked + rest)
    {
      assert raws[i..][0] == raws[i] && raws[i..][1..] == raws[i + 1..];
      var gate := AgentGate(raws[i], local, ids, kinds);
      if gate == None { return None; }
      ids, kinds := ids + {gate.value.id}, kinds + {gate.value.kind};
      assert forall rest: seq<Gate> :: checked + ([gate.value] + rest) == checked + [gate.value] + rest;
      checked := checked + [gate.value];
      i := i + 1;
    }
    assert raws[i..] == [] && checked + [] == checked;
    r := if KindsOf(checked) == AGENT_ORDER then Some(Plan(checked, digest)) else None;
  }

  /** The runtime's loop over the gates. */
  method RuntimeValidate(value: Json, facts: Identity, digest: string) returns (r: Option<Plan>)
    ensures r == RuntimePlan(value, facts, digest)
  {
    if !PlanShape(value, digest) { return None; }
    hide RuntimeGate, KindsOf;
    var raws := value.members["healthGates"].items;
    var ids: set<string>, kinds: set<string>, checked: seq<Gate> := {}, {}, [];
    var i := 0;
    assert raws[0..] == raws;
    assert forall rest: seq<Gate> :: checked + rest == rest;
    while i < |raws|
      invariant i <= |raws|
      invariant RuntimeGates(raws, facts, {}, {}) ==
        match RuntimeGates(raws[i..], facts, ids, kinds) case None => None case Some(rest) => Some(checked + rest)
    {
      assert raws[i..][0] == raws[i] && raws[i..][1..] == raws[i + 1..];
      var gate := RuntimeGate(raws[i], facts, ids, kinds);
      if gate == None { return None; }
      ids, kinds := ids + {gate.value.id}, kinds + {gate.value.kind};
      assert forall rest: seq<Gate> :: checked + ([gate.value] + rest) == checked + [gate.value] + rest;
      checked := checked + [gate.value];
      i := i + 1;
    }
    assert raws[i..] == [] && checked + [] == checked;
    r := if KindsOf(checked) == RUNTIME_ORDER then Some(Plan(checked, digest)) else None;
  }

  /** For every JSON value: the agent accepts exactly the plans the runtime accepts, with the same record,
      whose gate numbers are written as integers, and only in tenant scope. */
  lemma PlansCoincide(value: Json, tenantScope: bool, who: Identity, digest: string)
    ensures AgentPlan(value, tenantScope, who, digest)
      == if tenantScope && PlanShape(value, digest) && AllIntegers(value.members["healthGates"].items) then RuntimePlan(value, who, digest) else None
  {
    if PlanShape(value, digest) {
      GateListsCoincide(value.members["healthGates"].items, who, {}, {});
    }
    hide AgentGates, RuntimeGates, AllIntegers;
  }

  /** What an accepted gate states, in terms of the identity alone. */
  predicate GateRules(g: Gate, local: Identity) {
    && g.tenantContextId == local.tenantContextId && g.allocationId == local.allocationId
    && Identifier(g.id) && g.timeout == 30 && g.maxAttempts == (if g.kind == "RTPENGINE_READY" then 3 else 1)
    && 1 <= |g.refs| <= 64 && (forall i | 0 <= i < |g.refs| :: Identifier(g.refs[i]))
    && forall i, j | 0 <= i < j < |g.refs| :: g.refs[i] != g.refs[j]
  }

  /** What a plan must be: the three gates in order, with distinct identifiers, for this digest, by the rules. */
  predicate PlanRules(p: Plan, local: Identity, digest: string) {
    && p.manifestDigest == digest && KindsOf(p.gates) == ["ARTIFACT_DIGESTS", "OPENSIPS_CONFIG", "RTPENGINE_READY"]
    && (forall i | 0 <= i < |p.gates| :: GateRules(p.gates[i], local))
    && forall i, j | 0 <= i < j < |p.gates| :: p.gates[i].id != p.gates[j].id
  }

  lemma AcceptedGate(raw: Json, local: Identity, seenIds: set<string>, seenKinds: set<string>)
    requires AgentGate(raw, local, seenIds, seenKinds).Some?
    ensures var g := AgentGate(raw, local, seenIds, seenKinds).value;
      GateRules(g, local) && g.id !in seenIds && g.kind !in seenKinds
  {
    var items := raw.members["resourceRefs"].items;
    forall i, j | 0 <= i < j < |items| ensures Strings(items)[i] != Strings(items)[j] {
      assert items[i] != items[j] && items[i].Str? && items[j].Str?;
    }
    hide Identifier;
  }

  lemma {:induction false} AcceptedGates(raws: seq<Json>, local: Identity, seenIds: set<string>, seenKinds: set<string>)
    requires AgentGates(raws, local, seenIds, seenKinds).Some?
    ensures var gates := AgentGates(raws, local, seenIds, seenKinds).value;
      && (forall i | 0 <= i < |gates| :: GateRules(gates[i], local) && gates[i].id !in seenIds)
      && forall i, j | 0 <= i < j < |gates| :: gates[i].id != gates[j].id
    decreases |raws|
  {
    hide AgentGate, GateRules;
    if raws != [] {
      AcceptedGate(raws[0], local, seenIds, seenKinds);
      var g := AgentGate(raws[0], local, seenIds, seenKinds).value;
      AcceptedGates(raws[1..], local, seenIds + {g.id}, seenKinds + {g.kind});
    }
  }

  /** An accepted plan is the three gates in order, with distinct identifiers, the fixed parameters and the
      local tenant's identity. */
  lemma AcceptedPlanIsExact(value: Json, local: Identity, digest: string)
    requires AgentPlan(value, true, local, digest).Some?
    ensures PlanRules(AgentPlan(value, true, local, digest).value, local, digest)
  {
    AcceptedGates(value.members["healthGates"].items, local, {}, {});
    hide AgentGates, GateRules;
  }

  // ---------------------------------------------------------------- what is accepted, written out

  function Quoted(texts: seq<string>): seq<Json> {
    seq(|texts|, i requires 0 <= i < |texts| => Str(texts[i]))
  }

  function GateRecord(g: Gate): Json {
    Object(map["allocationId" := Str(g.allocationId), "gateId" := Str(g.id), "maxAttempts" := Int(g.maxAttempts),
               "onFailure" := Str("ROLLBACK_TO_TARGET"), "resourceRefs" := List(Quoted(g.refs)), "tenantContextId" := Str(g.tenantContextId),
               "timeoutSeconds" := Int(g.timeout), "type" := Str(g.kind)])
  }

  function PlanRecord(p: Plan): Json {
    Object(map["apiVersion" := Str(API_VERSION), "healthGates" := List(seq(|p.gates|, i requires 0 <= i < |p.gates| => GateRecord(p.gates[i]))),
               "kind" := Str(PLAN_KIND), "manifestDigest" := Str(p.manifestDigest)])
  }

  lemma RefsAreQuoted(v: Json)
    requires AcceptedRefs(v)
    ensures v == List(Quoted(Strings(v.items)))
  {
    assert v.items == Quoted(Strings(v.items));
  }

  lemma QuotedAreAccepted(refs: seq<string>)
    requires 1 <= |refs| <= 64 && forall i | 0 <= i < |refs| :: Identifier(refs[i])
    requires forall i, j | 0 <= i < j < |refs| :: refs[i] != refs[j]
    ensures AcceptedRefs(List(Quoted(refs))) && Strings(Quoted(refs)) == refs
  {
    hide Identifier;
  }

  lemma AcceptedIsRecord(raw: Json, local: Identity, seenIds: set<string>, seenKinds: set<string>)
    requires AgentGate(raw, local, seenIds, seenKinds).Some?
    ensures raw == GateRecord(AgentGate(raw, local, seenIds, seenKinds).value)
  {
    RefsAreQuoted(raw.members["resourceRefs"]);
    hide AcceptedRefs, Identifier, Strings, Quoted, AgentParameters;
    var g := AgentGate(raw, local, seenIds, seenKinds).value;
    var m, m' := raw.members, GateRecord(g).members;
    assert m.Keys == m'.Keys;
    assert forall k | k in GATE_FIELDS :: m[k] == m'[k];
    assert m == m';
  }

  lemma RecordIsAccepted(g: Gate, local: Identity, seenIds: set<string>, seenKinds: set<string>)
    requires GateRules(g, local) && g.kind in ["ARTIFACT_DIGESTS", "OPENSIPS_CONFIG", "RTPENGINE_READY"]
    requires g.id !in seenIds && g.kind !in seenKinds
    ensures AgentGate(GateRecord(g), local, seenIds, seenKinds) == Some(g)
  {
    QuotedAreAccepted(g.refs);
    TablesCoincide(g.kind);
    hide AcceptedRefs, Identifier, Strings, Quoted;
    assert GateRecord(g).members.Keys == GATE_FIELDS;
  }

  /** The gates of a plan, without mention of those seen before. */
  predicate GatesRule(gates: seq<Gate>, local: Identity) {
    && (forall i | 0 <= i < |gates| :: GateRules(gates[i], local) && gates[i].kind in ["ARTIFACT_DIGESTS", "OPENSIPS_CONFIG", "RTPENGINE_READY"])
    && (forall i, j | 0 <= i < j < |gates| :: gates[i].id != gates[j].id)
    && forall i, j | 0 <= i < j < |gates| :: gates[i].kind != gates[j].kind
  }

  predicate NoneSeen(gates: seq<Gate>, seenIds: set<string>, seenKinds: set<string>) {
    forall i | 0 <= i < |gates| :: gates[i].id !in seenIds && gates[i].kind !in seenKinds
  }

  lemma {:induction false} RecordsAreAccepted(raws: seq<Json>, gates: seq<Gate>, local: Identity, seenIds: set<string>, seenKinds: set<string>)
    requires |raws| == |gates| && (forall i | 0 <= i < |raws| :: raws[i] == GateRecord(gates[i]))
    requires GatesRule(gates, local) && NoneSeen(gates, seenIds, seenKinds)
    ensures AgentGates(raws, local, seenIds, seenKinds) == Some(gates)
    decreases |raws|
  {
    hide AgentGate, GateRules, GateRecord;
    if raws != [] {
      RecordIsAccepted(gates[0], local, seenIds, seenKinds);
      RecordsAreAccepted(raws[1..], gates[1..], local, seenIds + {gates[0].id}, seenKinds + {gates[0].kind});
      assert gates == [gates[0]] + gates[1..];
    }
  }

  lemma {:induction false} AcceptedAreRecords(raws: seq<Json>, local: Identity, seenIds: set<string>, seenKinds: set<string>)
    requires AgentGates(raws, local, seenIds, seenKinds).Some?
    ensures var gates := AgentGates(raws, local, seenIds, seenKinds).value;
      |gates| == |raws| && forall i | 0 <= i < |raws| :: raws[i] == GateRecord(gates[i])
    decreases |raws|
  {
    hide AgentGate, GateRecord;
    if raws != [] {
      AcceptedIsRecord(raws[0], local, seenIds, seenKinds);
      var g := AgentGate(raws[0], local, seenIds, seenKinds).value;
      AcceptedAreRecords(raws[1..], local, seenIds + {g.id}, seenKinds + {g.kind});
      var gates := AgentGates(raws, local, seenIds, seenKinds).value;
      forall i | 0 <= i < |raws| ensures raws[i] == GateRecord(gates[i]) {
        if i > 0 { assert raws[i] == raws[1..][i - 1] && gates[i] == gates[1..][i - 1]; }
      }
    }
  }

  lemma ShapedIsRecord(value: Json, p: Plan)
    requires PlanShape(value, p.manifestDigest)
    requires var raws := value.members["healthGates"].items;
      |raws| == |p.gates| && forall i | 0 <= i < |raws| :: raws[i] == GateRecord(p.gates[i])
    ensures value == PlanRecord(p)
  {
    hide GateRecord;
    var m, m' := value.members, PlanRecord(p).members;
    assert m'["healthGates"].items == m["healthGates"].items;
    assert m.Keys == m'.Keys && forall k | k in PLAN_FIELDS :: m[k] == m'[k];
    assert m == m';
  }

  lemma AcceptedPlanIsRecord(value: Json, local: Identity, digest: string)
    requires AgentPlan(value, true, local, digest).Some?
    ensures value == PlanRecord(AgentPlan(value, true, local, digest).value)
  {
    var p := AgentPlan(value, true, local, digest).value;
    var raws := value.members["healthGates"].items;
    AcceptedAreRecords(raws, local, {}, {});
    ShapedIsRecord(value, p);
    hide PlanRecord;
  }

  lemma OrderedPlanKeepsRule(p: Plan, local: Identity, digest: string)
    requires PlanRules(p, local, digest)
    ensures GatesRule(p.gates, local) && |p.gates| == 3
  {
    var kinds := KindsOf(p.gates);
    assert |p.gates| == |kinds| == 3 && forall i | 0 <= i < 3 :: p.gates[i].kind == kinds[i];
    assert kinds[0] == "ARTIFACT_DIGESTS" && kinds[1] == "OPENSIPS_CONFIG" && kinds[2] == "RTPENGINE_READY";
    assert |kinds[0]| == 16 && |kinds[1]| == 15 && kinds[1][0] == 'O' && kinds[2][0] == 'R';
    hide GateRules, KindsOf;
  }

  lemma RecordPlanIsAccepted(p: Plan, local: Identity, digest: string)
    requires PlanRules(p, local, digest)
    ensures AgentPlan(PlanRecord(p), true, local, digest) == Some(p)
  {
    OrderedPlanKeepsRule(p, local, digest);
    var value := PlanRecord(p);
    hide GateRules, GateRecord, KindsOf, GatesRule;
    assert value.members.Keys == PLAN_FIELDS;
    RecordsAreAccepted(value.members["healthGates"].items, p.gates, local, {}, {});
    hide AgentGates;
  }

  /** The agent accepts a value as the plan `p` exactly when the value is the record of `p` and `p` keeps the
      rules: nothing else is accepted, nothing more is demanded, and writing and reading a plan is the identity. */
  lemma AcceptedPlansExactly(value: Json, p: Plan, local: Identity, digest: string)
    ensures AgentPlan(value, true, local, digest) == Some(p) <==> value == PlanRecord(p) && PlanRules(p, local, digest)
  {
    if AgentPlan(value, true, local, digest) == Some(p) {
      AcceptedPlanIsExact(value, local, digest);
      AcceptedPlanIsRecord(value, local, digest);
    }
    if value == PlanRecord(p) && PlanRules(p, local, digest) { RecordPlanIsAccepted(p, local, digest); }
    hide AgentPlan, PlanRecord, GateRules;
  }

  ghost predicate FloatFree(v: Json) {
    match v
    case Float(_) => false
    case List(items) => forall i | 0 <= i < |items| :: FloatFree(items[i])
    case Object(members) => forall k | k in members :: FloatFree(members[k])
    case _ => true
  }

  lemma RuntimeGateNumbers(raw: Json, facts: Identity, seenIds: set<string>, seenKinds: set<string>)
    requires FloatFree(raw) && RuntimeGate(raw, facts, seenIds, seenKinds).Some?
    ensures IntegerNumbers(raw)
  {
    if raw.Object? && "type" in raw.members && raw.members["type"].Str? { TablesCoincide(raw.members["type"].s); }
    hide AcceptedRefs, Identifier, Strings, AgentParameters, RuntimeParameters;
    assert FloatFree(raw.members["timeoutSeconds"]) && FloatFree(raw.members["maxAttempts"]);
  }

  lemma {:induction false} RuntimeListNumbers(raws: seq<Json>, facts: Identity, seenIds: set<string>, seenKinds: set<string>)
    requires (forall i | 0 <= i < |raws| :: FloatFree(raws[i])) && RuntimeGates(raws, facts, seenIds, seenKinds).Some?
    ensures AllIntegers(raws)
    decreases |raws|
  {
    hide RuntimeGate, IntegerNumbers, FloatFree;
    if raws != [] {
      RuntimeGateNumbers(raws[0], facts, seenIds, seenKinds);
      var g := RuntimeGate(raws[0], facts, seenIds, seenKinds).value;
      RuntimeListNumbers(raws[1..], facts, seenIds + {g.id}, seenKinds + {g.kind});
      forall i | 0 <= i < |raws| ensures IntegerNumbers(raws[i]) { if i > 0 { assert raws[i] == raws[1..][i - 1]; } }
    }
  }

  /** On values without floats, which are all that the parser of signed documents lets through, the two
      validators are the same function. */
  lemma CanonicalPlansCoincide(value: Json, who: Identity, digest: string)
    requires FloatFree(value)
    ensures AgentPlan(value, true, who, digest) == RuntimePlan(value, who, digest)
  {
    PlansCoincide(value, true, who, digest);
    if RuntimePlan(value, who, digest).Some? {
      var raws := value.members["healthGates"].items;
      assert FloatFree(value.members["healthGates"]);
      RuntimeListNumbers(raws, who, {}, {});
    }
    hide RuntimeGates, AgentGates, AllIntegers;
  }

  /** A float would show the difference: 30.0 seconds pass the runtime's validator and not the agent's. */
  lemma FloatSeparates(refs: Json, who: Identity)
    requires AcceptedRefs(refs)
    ensures var raw := Object(map["allocationId" := Str(who.allocationId), "gateId" := Str("gate"), "maxAttempts" := Int(1),
        "onFailure" := Str("ROLLBACK_TO_TARGET"), "resourceRefs" := refs, "tenantContextId" := Str(who.tenantContextId),
        "timeoutSeconds" := Float(Finite(30.0)), "type" := Str("ARTIFACT_DIGESTS")]);
      RuntimeGate(raw, who, {}, {}).Some? && AgentGate(raw, who, {}, {}) == None
  {
    hide AcceptedRefs, Strings;
    var m := map["allocationId" := Str(who.allocationId), "gateId" := Str("gate"), "maxAttempts" := Int(1),
        "onFailure" := Str("ROLLBACK_TO_TARGET"), "resourceRefs" := refs, "tenantContextId" := Str(who.tenantContextId),
        "timeoutSeconds" := Float(Finite(30.0)), "type" := Str("ARTIFACT_DIGESTS")];
    assert m.Keys == GATE_FIELDS;
    assert Identifier("gate");
  }

  // ---------------------------------------------------------------- results

  datatype GateResult = GateResult(attemptsUsed: int, gateId: string, proofs: seq<string>, kind: string)

  predicate AgentProof(v: Json, name: string) {
    ExactObject(v, {"name", "status"}) && v.members["name"] == Str(name) && v.members["status"] == Str("PASSED")
  }

  predicate RuntimeProof(v: Json, name: string) {
    ExactObject(v, {"name", "status"}) && v == Object(map["name" := Str(name), "status" := Str("PASSED")])
  }

  lemma ProofsCoincide(v: Json, name: string)
    ensures AgentProof(v, name) <==> RuntimeProof(v, name)
  {
    if AgentProof(v, name) {
      var expected := map["name" := Str(name), "status" := Str("PASSED")];
      assert v.members.Keys == expected.Keys;
      assert forall k | k in expected :: v.members[k] == expected[k];
      assert v.members == expected;
    }
  }

  function AgentResult(v: Json, g: Gate): Option<GateResult> {
    if !ExactObject(v, RESULT_FIELDS) then None
    else
      var m := v.members;
      if m["gateId"] != Str(g.id) || m["type"] != Str(g.kind) || m["status"] != Str("PASSED") then None
      else if !m["attemptsUsed"].Int? || !(1 <= m["attemptsUsed"].n <= g.maxAttempts) then None
      else if !m["proofs"].List? || |m["proofs"].items| != |AgentProofs(g.kind)| then None
      else if exists i | 0 <= i < |AgentProofs(g.kind)| :: !AgentProof(m["proofs"].items[i], AgentProofs(g.kind)[i]) then None
      else Some(GateResult(m["attemptsUsed"].n, g.id, AgentProofs(g.kind), g.kind))
  }

  predicate IsInstanceInt(v: Json) {
    v.Int? || v.Bool?
  }

  function AsInt(v: Json): int
    requires IsInstanceInt(v)
  {
    match v case Int(n) => n case Bool(b) => if b then 1 else 0
  }

  function RuntimeResult(v: Json, g: Gate): Option<GateResult> {
    if !ExactObject(v, RESULT_FIELDS) then None
    else
      var m := v.members;
      var attempts := m["attemptsUsed"];
      if m["gateId"] != Str(g.id) || m["type"] != Str(g.kind) || m["status"] != Str("PASSED")
         || attempts.Bool? || !IsInstanceInt(attempts) || !(1 <= AsInt(attempts) <= g.maxAttempts) then None
      else if !m["proofs"].List? || |m["proofs"].items| != |RuntimeProofs(g.kind)| then None
      else if exists i | 0 <= i < |RuntimeProofs(g.kind)| :: !RuntimeProof(m["proofs"].items[i], RuntimeProofs(g.kind)[i]) then None
      else Some(GateResult(AsInt(attempts), g.id, RuntimeProofs(g.kind), g.kind))
  }

  lemma ResultsCoincide(v: Json, g: Gate)
    ensures AgentResult(v, g) == RuntimeResult(v, g)
  {
    TablesCoincide(g.kind);
    if ExactObject(v, RESULT_FIELDS) && v.members["proofs"].List? && |v.members["proofs"].items| == |AgentProofs(g.kind)| {
      var proofs := v.members["proofs"].items;
      forall i | 0 <= i < |AgentProofs(g.kind)| ensures AgentProof(proofs[i], AgentProofs(g.kind)[i]) <==> RuntimeProof(proofs[i], AgentProofs(g.kind)[i]) {
        ProofsCoincide(proofs[i], AgentProofs(g.kind)[i]);
      }
    }
    hide AgentProof, RuntimeProof, AgentProofs, RuntimeProofs;
  }

  function ProofRecord(name: string): Json {
    Object(map["name" := Str(name), "status" := Str("PASSED")])
  }

  function ResultRecord(r: GateResult): Json {
    Object(map["attemptsUsed" := Int(r.attemptsUsed), "gateId" := Str(r.gateId),
               "proofs" := List(seq(|r.proofs|, i requires 0 <= i < |r.proofs| => ProofRecord(r.proofs[i]))),
               "status" := Str("PASSED"), "type" := Str(r.kind)])
  }

  /** A result answers its gate: that gate, within its attempts, with all of its proofs. */
  predicate Answers(r: GateResult, g: Gate) {
    r.gateId == g.id && r.kind == g.kind && r.proofs == AgentProofs(g.kind) && 1 <= r.attemptsUsed <= g.maxAttempts
  }

  /** A result is accepted exactly when it is the record of one that answers its gate, with every proof passed. */
  lemma ResultExactly(v: Json, g: Gate, r: GateResult)
    ensures AgentResult(v, g) == Some(r) <==> v == ResultRecord(r) && Answers(r, g)
  {
    var names := AgentProofs(g.kind);
    if AgentResult(v, g) == Some(r) {
      var proofs := v.members["proofs"].items;
      forall i | 0 <= i < |names| ensures proofs[i] == ProofRecord(names[i]) { ProofsCoincide(proofs[i], names[i]); }
      hide AgentProof, AgentProofs;
      assert ResultRecord(r).members["proofs"].items == proofs;
      assert ResultRecord(r).members.Keys == v.members.Keys;
      assert forall k | k in RESULT_FIELDS :: v.members[k] == ResultRecord(r).members[k];
      assert v.members == ResultRecord(r).members;
    }
    if v == ResultRecord(r) && Answers(r, g) {
      var proofs := v.members["proofs"].items;
      forall i | 0 <= i < |names| ensures AgentProof(proofs[i], names[i]) { ProofsCoincide(proofs[i], names[i]); }
      hide AgentProof, AgentProofs;
      assert v.members.Keys == RESULT_FIELDS;
    }
  }

  function AgentResults(values: seq<Json>, gates: seq<Gate>): Option<seq<GateResult>>
    requires |values| == |gates|
  {
    if values == [] then Some([])
    else
      match (AgentResult(values[0], gates[0]), AgentResults(values[1..], gates[1..]))
      case (Some(first), Some(rest)) => Some([first] + rest)
      case _ => None
  }

  ghost predicate RecordsAnswer(values: seq<Json>, gates: seq<Gate>, results: seq<GateResult>) {
    && |values| == |gates| == |results|
    && forall i | 0 <= i < |values| :: values[i] == ResultRecord(results[i]) && Answers(results[i], gates[i])
  }

  lemma {:induction false} ResultSeqExactly(values: seq<Json>, gates: seq<Gate>, results: seq<GateResult>)
    requires |values| == |gates| == |results|
    ensures AgentResults(values, gates) == Some(results) <==> RecordsAnswer(values, gates, results)
    decreases |values|
  {
    hide AgentResult, ResultRecord, Answers;
    if values != [] {
      ResultExactly(values[0], gates[0], results[0]);
      ResultSeqExactly(values[1..], gates[1..], results[1..]);
      assert results == [results[0]] + results[1..];
      if RecordsAnswer(values, gates, results) { assert RecordsAnswer(values[1..], gates[1..], results[1..]); }
      if RecordsAnswer(values[1..], gates[1..], results[1..]) && values[0] == ResultRecord(results[0]) && Answers(results[0], gates[0]) {
        forall i | 0 <= i < |values| ensures values[i] == ResultRecord(results[i]) && Answers(results[i], gates[i]) {
          if i > 0 { assert values[i] == values[1..][i - 1] && gates[i] == gates[1..][i - 1] && results[i] == results[1..][i - 1]; }
        }
      }
    }
  }

  function RuntimeResults(values: seq<Json>, gates: seq<Gate>): Option<seq<GateResult>>
    requires |values| == |gates|
  {
    if values == [] then Some([])
    else
      match (RuntimeResult(values[0], gates[0]), RuntimeResults(values[1..], gates[1..]))
      case (Some(first), Some(rest)) => Some([first] + rest)
      case _ => None
  }

  function AgentResultList(v: Json, p: Plan): Option<seq<GateResult>> {
    if v.List? && |v.items| == |p.gates| then AgentResults(v.items, p.gates) else None
  }

  function RuntimeResultList(v: Json, p: Plan): Option<seq<GateResult>> {
    if v.List? && |v.items| == |p.gates| then RuntimeResults(v.items, p.gates) else None
  }

  lemma {:induction false} ResultSeqsCoincide(values: seq<Json>, gates: seq<Gate>)
    requires |values| == |gates|
    ensures AgentResults(values, gates) == RuntimeResults(values, gates)
    ensures AgentResults(values, gates).Some? ==>
      && |AgentResults(values, gates).value| == |gates|
      && forall i | 0 <= i < |gates| ::
           var r := AgentResults(values, gates).value[i];
           r.gateId == gates[i].id && r.kind == gates[i].kind && r.proofs == AgentProofs(gates[i].kind) && 1 <= r.attemptsUsed <= gates[i].maxAttempts
    decreases |values|
  {
    if values != [] {
      ResultsCoincide(values[0], gates[0]);
      ResultSeqsCoincide(values[1..], gates[1..]);
      var rest := AgentResults(values[1..], gates[1..]);
      if AgentResults(values, gates).Some? {
        var all := AgentResults(values, gates).value;
        forall i | 0 <= i < |gates|
          ensures all[i].gateId == gates[i].id && all[i].kind == gates[i].kind && all[i].proofs == AgentProofs(gates[i].kind)
            && 1 <= all[i].attemptsUsed <= gates[i].maxAttempts
        {
          if i > 0 { assert all[i] == rest.value[i - 1] && gates[i] == gates[1..][i - 1]; }
        }
      }
    }
    hide AgentResult, RuntimeResult, AgentProofs;
  }

  /** On every value at all the two result validators agree, and what they return lists the plan's gates in
      order, each with its exact proofs and no more attempts than it was given. */
  lemma ResultListsCoincide(v: Json, p: Plan)
    ensures AgentResultList(v, p) == RuntimeResultList(v, p)
    ensures AgentResultList(v, p).Some? ==>
      && |AgentResultList(v, p).value| == |p.gates|
      && forall i | 0 <= i < |p.gates| ::
           var r := AgentResultList(v, p).value[i];
           && r.gateId == p.gates[i].id && r.kind == p.gates[i].kind && r.proofs == AgentProofs(p.gates[i].kind)
           && 1 <= r.attemptsUsed <= p.gates[i].maxAttempts
  {
    if v.List? && |v.items| == |p.gates| {
      ResultSeqsCoincide(v.items, p.gates);
    }
    hide AgentResults, RuntimeResults, AgentProofs;
  }

  /** A list of results is accepted exactly when it records, gate by gate in the plan's order, results that
      answer the gates with every proof passed. */
  lemma AcceptedResultsExactly(v: Json, p: Plan, results: seq<GateResult>)
    requires |results| == |p.gates|
    ensures AgentResultList(v, p) == Some(results) <==> v.List? && RecordsAnswer(v.items, p.gates, results)
  {
    if v.List? && |v.items| == |p.gates| { ResultSeqExactly(v.items, p.gates, results); }
  }
}
