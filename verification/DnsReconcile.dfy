/**
 Planning and applying the removal of stale certificate challenges, against a cloud that others may change
 between any two steps (infra/azure-poc/reconcile_root_direct_dns_acme_authority.py; `delete_txt` of
 root_direct_dns_acme_contract.py).
 */
module DnsReconcile {
  import opened Options

  // ---------------------------------------------------------------- what discovery shows

  datatype Challenge = Challenge(etag: string, id: string, values: string)

  /** A child zone: its own etag moves with every change, `content` is the rest of its authority. */
  datatype Zone = Zone(name: string, etag: string, content: string, challenge: Option<Challenge>)

  datatype Machine = Machine(identity: string, power: string)

  datatype Discovery = Discovery(
    zones: seq<Zone>, role: string, parentRecords: string, machines: seq<Machine>, preserved: string, scope: string)

  datatype Action = Action(etag: string, id: string, zone: string)

  function ActionOf(z: Zone): seq<Action> {
    match z.challenge
    case None => []
    case Some(c) => [Action(c.etag, c.id, z.name)]
  }

  function Actions(zones: seq<Zone>): seq<Action> {
    if zones == [] then [] else ActionOf(zones[0]) + Actions(zones[1..])
  }

  lemma {:induction false} ActionsConcat(a: seq<Zone>, b: seq<Zone>)
    ensures Actions(a + b) == Actions(a) + Actions(b)
    decreases |a|
  {
    if a == [] {
      assert a + b == b;
    } else {
      ActionsConcat(a[1..], b);
      assert (a + b)[0] == a[0] && (a + b)[1..] == a[1..] + b;
      assert Actions(a + b) == ActionOf(a[0]) + Actions(a[1..] + b);
      hide *;
      assert ActionOf(a[0]) + (Actions(a[1..]) + Actions(b)) == (ActionOf(a[0]) + Actions(a[1..])) + Actions(b);
    }
  }

  method ListActions(zones: seq<Zone>) returns (result: seq<Action>)
    ensures result == Actions(zones)
  {
    result := [];
    for i := 0 to |zones|
      invariant result == Actions(zones[..i])
    {
      ActionsConcat(zones[..i], [zones[i]]);
      assert zones[..i + 1] == zones[..i] + [zones[i]];
      assert Actions([zones[i]]) == ActionOf(zones[i]) + Actions([]);
      if zones[i].challenge.Some? {
        var c := zones[i].challenge.value;
        result := result + [Action(c.etag, c.id, zones[i].name)];
      }
    }
    assert zones[..|zones|] == zones;
  }

  /** What must not change while challenges are removed: no zone etags, no power states. */
  datatype Stable = Stable(zones: seq<(string, string)>, role: string, parentRecords: string, machines: seq<string>)

  function StableAuthority(d: Discovery): Stable {
    Stable(seq(|d.zones|, i requires 0 <= i < |d.zones| => (d.zones[i].name, d.zones[i].content)), d.role, d.parentRecords,
      seq(|d.machines|, i requires 0 <= i < |d.machines| => d.machines[i].identity))
  }

  predicate Deallocated(machines: seq<Machine>) {
    forall i | 0 <= i < |machines| :: machines[i].power == "PowerState/deallocated"
  }

  /** A plan, and the digest that determines it. */
  datatype Plan = Plan(actions: seq<Action>, discovery: Discovery)
  datatype Digest = Of(plan: Plan)

  function PlanFor(d: Discovery): Option<Plan> {
    if Actions(d.zones) != [] && !Deallocated(d.machines) then None else Some(Plan(Actions(d.zones), d))
  }

  /** Every machine reads as deallocated. */
  predicate AllStopped(machines: seq<Machine>) {
    forall m | m in machines :: m.power == "PowerState/deallocated"
  }

  /** The plan is the one this discovery allows: its actions are the challenges that are there, and there are
      none unless every machine is deallocated. */
  predicate Planned(d: Discovery, p: Plan) {
    && p.discovery == d && p.actions == Actions(d.zones)
    && ((exists z :: z in d.zones && z.challenge.Some?) ==> AllStopped(d.machines))
  }

  lemma {:induction false} SomeAction(zones: seq<Zone>)
    ensures Actions(zones) != [] <==> exists z :: z in zones && z.challenge.Some?
    decreases |zones|
  {
    if zones != [] {
      SomeAction(zones[1..]);
      if z :| z in zones && z.challenge.Some? && z != zones[0] { assert z in zones[1..]; }
      if zones[0].challenge.Some? { assert zones[0] in zones; }
    }
  }

  /** A plan is made exactly then. */
  lemma PlanExactly(d: Discovery, p: Plan)
    ensures PlanFor(d) == Some(p) <==> Planned(d, p)
    ensures PlanFor(d).Some? <==> (exists z :: z in d.zones && z.challenge.Some?) ==> AllStopped(d.machines)
  {
    SomeAction(d.zones);
    var machines := d.machines;
    if AllStopped(machines) { assert forall i | 0 <= i < |machines| :: machines[i] in machines; }
    hide Actions;
  }

  predicate SameAuthority(a: Discovery, b: Discovery) {
    a.scope == b.scope && a.preserved == b.preserved && StableAuthority(a) == StableAuthority(b)
  }

  /** The authority is the same when all but zone etags, challenges and power states is. */
  lemma SameAuthorityExactly(a: Discovery, b: Discovery)
    ensures SameAuthority(a, b) <==>
      && a.scope == b.scope && a.preserved == b.preserved && a.role == b.role && a.parentRecords == b.parentRecords
      && |a.zones| == |b.zones| && (forall i | 0 <= i < |a.zones| :: a.zones[i].name == b.zones[i].name && a.zones[i].content == b.zones[i].content)
      && |a.machines| == |b.machines| && forall i | 0 <= i < |a.machines| :: a.machines[i].identity == b.machines[i].identity
  {
    var x, y := StableAuthority(a), StableAuthority(b);
    if x == y {
      assert |a.zones| == |x.zones| == |y.zones| && |a.machines| == |x.machines| == |y.machines|;
      forall i | 0 <= i < |a.zones| ensures a.zones[i].name == b.zones[i].name && a.zones[i].content == b.zones[i].content {
        assert x.zones[i] == y.zones[i];
      }
      forall i | 0 <= i < |a.machines| ensures a.machines[i].identity == b.machines[i].identity {
        assert x.machines[i] == y.machines[i];
      }
    } else if |a.zones| == |b.zones| && |a.machines| == |b.machines| {
      if forall i | 0 <= i < |a.zones| :: a.zones[i].name == b.zones[i].name && a.zones[i].content == b.zones[i].content {
        assert x.zones == y.zones;
      }
      if forall i | 0 <= i < |a.machines| :: a.machines[i].identity == b.machines[i].identity {
        assert x.machines == y.machines;
      }
    }
  }

  // ---------------------------------------------------------------- deleting one challenge

  /** A delete with `--if-match` finds the challenge of the zone with exactly that etag. */
  predicate Matches(d: Discovery, a: Action, i: nat) {
    i < |d.zones| && d.zones[i].name == a.zone && d.zones[i].challenge.Some? && d.zones[i].challenge.value.etag == a.etag
  }

  function Without(d: Discovery, i: nat, etag: string): Discovery
    requires i < |d.zones|
  {
    d.(zones := d.zones[i := d.zones[i].(challenge := None, etag := etag)])
  }

  lemma WithoutKeepsAuthority(d: Discovery, i: nat, etag: string)
    requires i < |d.zones|
    ensures SameAuthority(Without(d, i, etag), d) && Without(d, i, etag).machines == d.machines
  {
    assert StableAuthority(Without(d, i, etag)).zones == StableAuthority(d).zones;
  }

  predicate DistinctZones(d: Discovery) {
    forall i, j | 0 <= i < j < |d.zones| :: d.zones[i].name != d.zones[j].name
  }

  /** The first action belongs to the first zone with a challenge. */
  lemma {:induction false} FirstAction(zones: seq<Zone>) returns (i: nat)
    requires Actions(zones) != []
    ensures i < |zones| && zones[i].challenge.Some? && ActionOf(zones[i]) == [Actions(zones)[0]]
    ensures forall k | 0 <= k < i :: zones[k].challenge == None
    decreases |zones|
  {
    if zones[0].challenge.Some? {
      i := 0;
    } else {
      var j := FirstAction(zones[1..]);
      i := j + 1;
    }
  }

  lemma {:induction false} SkipEmpty(zones: seq<Zone>, i: nat)
    requires i < |zones| && forall k | 0 <= k < i :: zones[k].challenge == None
    ensures Actions(zones) == ActionOf(zones[i]) + Actions(zones[i + 1..])
    decreases i
  {
    if i > 0 {
      SkipEmpty(zones[1..], i - 1);
      assert zones[1..][i..] == zones[i + 1..];
    }
  }

  /** Deleting what the first action names leaves exactly the other actions, in order. */
  lemma DeletionLeavesTheRest(d: Discovery, i: nat, etag: string)
    requires Actions(d.zones) != [] && DistinctZones(d) && Matches(d, Actions(d.zones)[0], i)
    ensures Actions(Without(d, i, etag).zones) == Actions(d.zones)[1..]
  {
    var zones, zones' := d.zones, Without(d, i, etag).zones;
    var first := FirstAction(zones);
    assert first == i;
    hide DistinctZones, Matches;
    SkipEmpty(zones, i);
    SkipEmpty(zones', i);
    assert zones'[i + 1..] == zones[i + 1..];
  }

  /** The first zone from `at` on that a delete of `a` finds. */
  function Find(d: Discovery, a: Action, at: nat): nat
    decreases |d.zones| - at
  {
    if at >= |d.zones| || Matches(d, a, at) then at else Find(d, a, at + 1)
  }

  /** What one delete request does: nothing when nothing matches. */
  function Delete(d: Discovery, a: Action, etag: string): Discovery {
    var i := Find(d, a, 0);
    if i >= |d.zones| then d else Without(d, i, etag)
  }

  /** The cloud after these deletions, each giving its zone a new etag. */
  function DeleteAll(d: Discovery, actions: seq<Action>, etags: seq<string>): Discovery
    requires |actions| == |etags|
    decreases |actions|
  {
    if actions == [] then d else DeleteAll(Delete(d, actions[0], etags[0]), actions[1..], etags[1..])
  }

  lemma {:induction false} DeleteAllConcat(d: Discovery, actions: seq<Action>, etags: seq<string>, a: Action, etag: string)
    requires |actions| == |etags|
    ensures DeleteAll(d, actions + [a], etags + [etag]) == Delete(DeleteAll(d, actions, etags), a, etag)
    decreases |actions|
  {
    hide Delete;
    if actions == [] {
      assert [a][1..] == [] && [etag][1..] == [];
    } else {
      DeleteAllConcat(Delete(d, actions[0], etags[0]), actions[1..], etags[1..], a, etag);
      assert (actions + [a])[1..] == actions[1..] + [a] && (etags + [etag])[1..] == etags[1..] + [etag];
    }
  }

  lemma {:induction false} FindIsFirst(d: Discovery, a: Action, at: nat, i: nat)
    requires at <= i && Matches(d, a, i) && forall j: nat | at <= j < i :: !Matches(d, a, j)
    ensures Find(d, a, at) == i
    decreases i - at
  {
    if at < i { FindIsFirst(d, a, at + 1, i); }
  }

  /** A delete of the first action removes the first challenge. */
  lemma FirstIsDeleted(d: Discovery, etag: string) returns (i: nat)
    requires DistinctZones(d) && Actions(d.zones) != []
    ensures Matches(d, Actions(d.zones)[0], i) && Delete(d, Actions(d.zones)[0], etag) == Without(d, i, etag)
  {
    i := FirstAction(d.zones);
    FindIsFirst(d, Actions(d.zones)[0], 0, i);
  }

  /** Stopped after any number of its deletions, and left alone, the cloud shows exactly the remaining suffix
      of the actions, under the same authority: the fresh plan is the rest of the old one. */
  lemma {:induction false} InterruptionLeavesSuffix(d: Discovery, k: nat, etags: seq<string>)
    requires DistinctZones(d) && k <= |Actions(d.zones)| && |etags| == k
    ensures
      var end := DeleteAll(d, Actions(d.zones)[..k], etags);
      && Actions(end.zones) == Actions(d.zones)[k..] && SameAuthority(end, d) && end.machines == d.machines && DistinctZones(end)
      && (PlanFor(d).Some? ==> PlanFor(end) == Some(Plan(Actions(d.zones)[k..], end)))
    decreases k
  {
    var actions := Actions(d.zones);
    if k > 0 {
      var i := FirstIsDeleted(d, etags[0]);
      var next := Without(d, i, etags[0]);
      DeletionLeavesTheRest(d, i, etags[0]);
      WithoutKeepsAuthority(d, i, etags[0]);
      InterruptionLeavesSuffix(next, k - 1, etags[1..]);
      assert Actions(next.zones)[..k - 1] == actions[..k][1..];
      assert Actions(next.zones)[k - 1..] == actions[k..];
    }
  }

  // ---------------------------------------------------------------- the cloud and the loop

  /** A deletion that was made: the action, what it removed, and the discovery read last before it. */
  datatype Deletion = Deletion(action: Action, removed: Challenge, ground: Option<Discovery>)

  /** The cloud. Unless it is quiet, anything in it may change before each request and requests may fail;
      `seen` is what the last discovery answered and `log` records the deletions. */
  class Azure {
    const quiet: bool
    var state: Discovery
    ghost var seen: Option<Discovery>
    ghost var log: seq<Deletion>

    constructor (state: Discovery, quiet: bool)
      ensures this.state == state && this.quiet == quiet && log == []
    {
      this.state := state;
      this.quiet := quiet;
      seen := None;
      log := [];
    }

    method OthersAct()
      modifies this`state
      ensures quiet ==> state == old(state)
    {
      var changed: Discovery := *;
      if !quiet { state := changed; }
    }

    method Discover() returns (d: Option<Discovery>)
      modifies this`state, this`seen
      ensures seen == d && (d.Some? ==> d.value == state)
      ensures quiet ==> state == old(state) && d.Some?
    {
      OthersAct();
      var failed: bool := *;
      d := if failed && !quiet then None else Some(state);
      seen := d;
    }

    /** Removes the challenge only if its etag is still the action's; a failure may hide that it did. */
    method DeleteTxt(a: Action) returns (done: bool, ghost made: bool, ghost c: Challenge, ghost etag: string)
      modifies this
      ensures
        if made then c.etag == a.etag && log == old(log) + [Deletion(a, c, old(seen))] else log == old(log)
      ensures done ==> made
      ensures quiet ==> state == Delete(old(state), a, etag) && done == (Find(old(state), a, 0) < |old(state).zones|)
    {
      made, c, etag := false, Challenge("", "", ""), "";
      OthersAct();
      var failed: bool := *;
      if failed && !quiet { return false, made, c, etag; }
      var at := 0;
      while at < |state.zones| && !Matches(state, a, at)
        invariant Find(state, a, 0) == Find(state, a, at)
      {
        at := at + 1;
      }
      if at >= |state.zones| { return false, made, c, etag; }
      made, c := true, state.zones[at].challenge.value;
      log := log + [Deletion(a, c, seen)];
      var newEtag: string := *;
      etag := newEtag;
      state := Without(state, at, newEtag);
      var lost: bool := *;
      done := quiet || !lost;
    }
  }

  method MakePlan(azure: Azure) returns (p: Option<Plan>)
    modifies azure`state, azure`seen
    ensures p.Some? ==> PlanFor(azure.state) == p && azure.seen == Some(azure.state)
    ensures azure.quiet ==> azure.state == old(azure.state) && p == PlanFor(azure.state)
  {
    var d := azure.Discover();
    if d == None { return None; }
    var actions := ListActions(d.value.zones);
    if actions != [] && !Deallocated(d.value.machines) { return None; }
    p := Some(Plan(actions, d.value));
  }

  /** The discovery allows the rest of the approved plan from `i` on. */
  ghost predicate Allows(d: Discovery, approved: Plan, i: nat) {
    i <= |approved.actions| && SameAuthority(d, approved.discovery) && Actions(d.zones) == approved.actions[i..] && AllStopped(d.machines)
  }

  /** The deletions since `before` are the first `k` approved ones, each of the record that was reviewed, and
      each right after a discovery that showed the reviewed authority, stopped machines and what was left. */
  ghost predicate Progress(before: seq<Deletion>, now: seq<Deletion>, approved: Plan, k: nat) {
    && k <= |approved.actions| && |now| == |before| + k && now[..|before|] == before
    && forall j | |before| <= j < |now| :: Follows(now[j], approved, j - |before|)
  }

  ghost predicate Follows(made: Deletion, approved: Plan, i: nat) {
    && i < |approved.actions| && made.action == approved.actions[i] && made.removed.etag == approved.actions[i].etag
    && made.ground.Some? && Allows(made.ground.value, approved, i)
  }

  datatype Result = Applied(actions: nat) | Refused | Stopped | Crashed

  predicate Boundary(b: Option<Plan>, approved: Plan, rest: seq<Action>) {
    b.Some? && SameAuthority(b.value.discovery, approved.discovery) && b.value.actions == rest
  }

  lemma ProgressGrows(before: seq<Deletion>, now: seq<Deletion>, approved: Plan, k: nat, made: Deletion)
    requires Progress(before, now, approved, k) && k < |approved.actions| && made.action == approved.actions[k]
    requires made.removed.etag == approved.actions[k].etag && made.ground.Some? && Allows(made.ground.value, approved, k)
    ensures Progress(before, now + [made], approved, k + 1)
  {
    hide Allows;
    var after := now + [made];
    assert after[..|before|] == now[..|before|];
    assert Follows(made, approved, k);
  }

  /** What a quiet cloud looks like before deletion `k` of an approved plan. */
  ghost predicate OnCourse(d: Discovery, approved: Plan, k: nat) {
    && DistinctZones(d) && k <= |approved.actions| && Actions(d.zones) == approved.actions[k..]
    && SameAuthority(d, approved.discovery) && PlanFor(d).Some?
  }

  /** `d` is what `k` deletions of an approved plan made of `start`. */
  ghost predicate Along(start: Discovery, d: Discovery, approved: Plan, k: nat, etags: seq<string>) {
    OnCourse(d, approved, k) && |etags| == k && d == DeleteAll(start, approved.actions[..k], etags)
  }

  lemma AlongContinues(start: Discovery, d: Discovery, approved: Plan, k: nat, etags: seq<string>, etag: string)
    requires Along(start, d, approved, k, etags) && k < |approved.actions|
    ensures Find(d, approved.actions[k], 0) < |d.zones|
    ensures Along(start, Delete(d, approved.actions[k], etag), approved, k + 1, etags + [etag])
  {
    var i := FirstIsDeleted(d, etag);
    DeletionLeavesTheRest(d, i, etag);
    WithoutKeepsAuthority(d, i, etag);
    DeleteAllConcat(start, approved.actions[..k], etags, approved.actions[k], etag);
    assert approved.actions[..k] + [approved.actions[k]] == approved.actions[..k + 1];
  }

  lemma AlongStarts(d: Discovery, plan: Plan)
    requires DistinctZones(d) && PlanFor(d) == Some(plan)
    ensures Along(d, d, plan, 0, [])
  {
    assert plan.actions[0..] == plan.actions;
  }

  lemma AlongHolds(start: Discovery, d: Discovery, approved: Plan, k: nat, etags: seq<string>, boundary: Option<Plan>)
    requires Along(start, d, approved, k, etags) && boundary == PlanFor(d)
    ensures k <= |approved.actions| && Boundary(boundary, approved, approved.actions[k..])
  {
  }

  lemma ProgressStarts(before: seq<Deletion>, approved: Plan)
    ensures Progress(before, before, approved, 0)
  {
    assert before[..|before|] == before;
  }

  lemma BoundaryFacts(d: Discovery, approved: Plan, last: Option<Plan>, rest: seq<Action>)
    requires Boundary(last, approved, rest) && PlanFor(d) == last
    ensures Actions(d.zones) == rest && SameAuthority(d, approved.discovery) && (rest != [] ==> AllStopped(d.machines))
  {
    PlanExactly(d, last.value);
    SomeAction(d.zones);
    hide SameAuthority, AllStopped, Actions;
  }

  /** The check before every deletion and at the end: the same authority and exactly the rest of the plan. */
  method CheckBoundary(azure: Azure, plan: Plan, index: nat, ghost start: Discovery, ghost etags: seq<string>, ghost live: bool) returns (ok: bool)
    requires index <= |plan.actions|
    requires live ==> azure.quiet && Along(start, azure.state, plan, index, etags)
    modifies azure`state, azure`seen
    ensures ok ==> SameAuthority(azure.state, plan.discovery) && Actions(azure.state.zones) == plan.actions[index..]
    ensures ok && index < |plan.actions| ==> azure.seen == Some(azure.state) && Allows(azure.state, plan, index)
    ensures live ==> ok && azure.state == old(azure.state)
  {
    var boundary := MakePlan(azure);
    if live { AlongHolds(start, azure.state, plan, index, etags, boundary); }
    ok := Boundary(boundary, plan, plan.actions[index..]);
    if ok { BoundaryFacts(azure.state, plan, boundary, plan.actions[index..]); }
  }

  /** One check and one deletion; `k` deletions have then been made. */
  method DeleteNext(azure: Azure, plan: Plan, index: nat, ghost start: Discovery, ghost etags: seq<string>, ghost live: bool,
                    ghost before: seq<Deletion>) returns (ok: bool, ghost k: nat, ghost etags': seq<string>)
    requires index < |plan.actions| && Progress(before, azure.log, plan, index)
    requires live ==> azure.quiet && Along(start, azure.state, plan, index, etags)
    modifies azure
    ensures Progress(before, azure.log, plan, k)
    ensures ok ==> k == index + 1
    ensures live ==> ok && Along(start, azure.state, plan, index + 1, etags')
  {
    hide *;
    k, etags' := index, etags;
    ok := CheckBoundary(azure, plan, index, start, etags, live);
    if !ok { return; }
    var action := plan.actions[index];
    ghost var d, log := azure.state, azure.log;
    ghost var made, c, etag;
    ok, made, c, etag := azure.DeleteTxt(action);
    if made {
      ProgressGrows(before, log, plan, index, Deletion(action, c, Some(d)));
      k := index + 1;
    }
    if live { AlongContinues(start, d, plan, index, etags, etag); }
    etags' := etags + [etag];
  }

  /** The confirmed loop over a plan. On a quiet cloud that shows the plan it is stopped by nothing but
      `crash`; `k` deletions are made, and `etags` are the zones' new etags. */
  method DeleteAndCheck(azure: Azure, plan: Plan, crash: Option<nat>, ghost live: bool) returns (r: Result, ghost k: nat, ghost etags: seq<string>)
    requires live ==> azure.quiet && Along(azure.state, azure.state, plan, 0, [])
    modifies azure
    ensures Progress(old(azure.log), azure.log, plan, k)
    ensures r.Crashed? || r.Stopped? || r.Applied?
    ensures r == Crashed ==> crash == Some(k)
    ensures r.Applied? ==>
      && k == |plan.actions| == r.actions && Actions(azure.state.zones) == [] && SameAuthority(azure.state, plan.discovery)
    ensures live ==>
      && r == (if crash.Some? && crash.value <= |plan.actions| then Crashed else Applied(|plan.actions|))
      && Along(old(azure.state), azure.state, plan, k, etags)
  {
    k, etags := 0, [];
    ghost var before := azure.log;
    ProgressStarts(before, plan);
    ghost var start := azure.state;
    hide *;
    r := Stopped;
    var index := 0;
    while index < |plan.actions|
      invariant index <= |plan.actions| && k == index
      invariant crash.Some? && crash.value <= |plan.actions| ==> index <= crash.value
      invariant Progress(before, azure.log, plan, k)
      invariant live ==> Along(start, azure.state, plan, index, etags)
    {
      if crash == Some(index) { return Crashed, k, etags; }
      var ok;
      ok, k, etags := DeleteNext(azure, plan, index, start, etags, live, before);
      if !ok { return; }
      index := index + 1;
    }
    if crash == Some(index) { return Crashed, k, etags; }
    assert plan.actions[index..] == [];
    var kept := CheckBoundary(azure, plan, index, start, etags, live);
    if !kept { return; }
    r := Applied(|plan.actions|);
  }

  /** One run over an approved plan, which dies once it has made `crash` deletions if that is given. What a
      crash leaves on a quiet cloud shows the rest of the plan. */
  method Apply(azure: Azure, approved: Digest, confirmed: bool, crash: Option<nat>) returns (r: Result, ghost k: nat, ghost etags: seq<string>)
    modifies azure
    ensures Progress(old(azure.log), azure.log, approved.plan, k)
    ensures r == Refused ==> k == 0
    ensures !confirmed ==> r == Refused && azure.state == old(azure.state) && azure.log == old(azure.log)
    ensures azure.quiet && !Planned(old(azure.state), approved.plan) ==>
      r == Refused && azure.state == old(azure.state) && azure.log == old(azure.log)
    ensures azure.quiet && k > 0 ==> AllStopped(old(azure.state).machines)
    ensures r == Crashed ==> crash == Some(k)
    ensures r.Applied? ==>
      && k == |approved.plan.actions| == r.actions && Actions(azure.state.zones) == []
      && SameAuthority(azure.state, approved.plan.discovery)
    ensures azure.quiet && confirmed && DistinctZones(old(azure.state)) && PlanFor(old(azure.state)) == Some(approved.plan) ==>
      && r == (if crash.Some? && crash.value <= |approved.plan.actions| then Crashed else Applied(|approved.plan.actions|))
      && Along(old(azure.state), azure.state, approved.plan, k, etags)
  {
    k, etags, r := 0, [], Refused;
    PlanExactly(azure.state, approved.plan);
    ghost var start := azure.state;
    ProgressStarts(azure.log, approved.plan);
    if !confirmed { return; }
    var p := MakePlan(azure);
    if p == None || Of(p.value) != approved { return; }
    ghost var live := azure.quiet && DistinctZones(azure.state);
    if live { AlongStarts(azure.state, p.value); }
    PlanExactly(azure.state, p.value);
    r, k, etags := DeleteAndCheck(azure, p.value, crash, live);
    if k > 0 { SomeAction(start.zones); }
  }
}
