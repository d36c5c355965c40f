/**
 The agent's protected state: staging, committing and aborting signed candidates over a replay floor, a
 last-known-good and an abort tombstone (edge/agent/security_core.py, `StateStore`, `verify_and_stage`,
 `commit_pending_after_health`, `abort_pending`; the lineage rules of edge/schema/manifest_tool.py).
 Artifact digests and key identifiers are numbers in the order of their texts.
 */
module AgentState {
  import opened Options

  // ---------------------------------------------------------------- sorted lists

  predicate Ascending(s: seq<nat>) {
    forall i, j | 0 <= i < j < |s| :: s[i] < s[j]
  }

  predicate NonDescending(s: seq<nat>) {
    forall i, j | 0 <= i < j < |s| :: s[i] <= s[j]
  }

  /** `sorted(set(...))`. */
  function InsertUnique(x: nat, s: seq<nat>): (r: seq<nat>)
    requires Ascending(s)
    ensures Ascending(r) && |s| <= |r| <= |s| + 1 && forall v :: v in r <==> v == x || v in s
  {
    if s == [] || x < s[0] then [x] + s
    else if x == s[0] then s
    else
      var rest := InsertUnique(x, s[1..]);
      assert forall v | v in rest :: s[0] < v;
      assert forall i | 0 <= i < |rest| :: rest[i] in rest;
      [s[0]] + rest
  }

  function SortedSet(xs: seq<nat>): (r: seq<nat>)
    ensures Ascending(r) && |r| <= |xs| && forall v :: v in r <==> v in xs
  {
    if xs == [] then [] else InsertUnique(xs[0], SortedSet(xs[1..]))
  }

  /** `sorted(...)`, which keeps repetitions. */
  function Insert(x: nat, s: seq<nat>): (r: seq<nat>)
    requires NonDescending(s)
    ensures NonDescending(r) && |r| == |s| + 1 && forall v :: v in r <==> v == x || v in s
  {
    if s == [] || x <= s[0] then [x] + s
    else
      var rest := Insert(x, s[1..]);
      assert forall v | v in rest :: s[0] <= v;
      assert forall i | 0 <= i < |rest| :: rest[i] in rest;
      [s[0]] + rest
  }

  function Sorted(xs: seq<nat>): (r: seq<nat>)
    ensures NonDescending(r) && |r| == |xs| && forall v :: v in r <==> v in xs
  {
    if xs == [] then [] else Insert(xs[0], Sorted(xs[1..]))
  }

  // ---------------------------------------------------------------- envelopes

  /** A digest is determined by, and determines, what it is taken of. */
  datatype Digest = Of(manifest: Manifest)

  datatype Rollback = Rollback(sequence: int, manifestDigest: Digest, artifactDigests: seq<nat>)

  datatype Manifest = Manifest(
    id: string, sequence: int, issuedAt: int, expiresAt: int, previous: Option<Digest>, active: bool,
    artifacts: seq<nat>, rollback: Option<Rollback>, target: LocalContext, healthGates: string)

  /** A signature names a key; whether it verifies under that key is given. */
  datatype Signature = Signature(keyId: nat, verifies: bool)

  datatype Envelope = Envelope(manifest: Manifest, manifestDigest: Digest, signatures: seq<Signature>)

  /** The immutable local identity; `slot` is the part candidates repeat. */
  datatype LocalContext = LocalContext(identity: string, slot: string)

  const MAX_ACTIVATION_TTL_SECONDS := 3600
  const MAX_ISSUED_AT_PAST_SKEW_SECONDS := 3600
  const MAX_ISSUED_AT_FUTURE_SKEW_SECONDS := 300

  predicate Distinct(xs: seq<nat>) {
    forall i, j | 0 <= i < j < |xs| :: xs[i] != xs[j]
  }

  /** What the manifest contract demands of an envelope on its own. */
  predicate WellFormed(e: Envelope, now: int) {
    var m := e.manifest;
    && e.manifestDigest == Of(m) && m.sequence >= 1
    && m.issuedAt < m.expiresAt <= m.issuedAt + MAX_ACTIVATION_TTL_SECONDS
    && now - MAX_ISSUED_AT_PAST_SKEW_SECONDS <= m.issuedAt <= now + MAX_ISSUED_AT_FUTURE_SKEW_SECONDS && now < m.expiresAt
    && |m.artifacts| <= 64 && (m.active <==> m.artifacts != [])
    && 1 <= |e.signatures| <= 4
    && (if m.sequence == 1 then m.previous == None && m.rollback == None
        else
          && m.previous.Some? && m.rollback.Some? && 1 <= m.rollback.value.sequence < m.sequence
          && m.rollback.value.manifestDigest == m.previous.value
          && |m.rollback.value.artifactDigests| <= 64 && Distinct(m.rollback.value.artifactDigests))
  }

  /** What it demands against the accepted lineage. */
  predicate FollowsLineage(m: Manifest, acceptedSequence: int, acceptedDigest: Option<Digest>) {
    && m.sequence > acceptedSequence
    && if acceptedSequence == 0 then m.previous == None && m.rollback == None
       else
         && m.previous == acceptedDigest
         && (m.rollback.Some? ==> m.rollback.value.sequence == acceptedSequence && Some(m.rollback.value.manifestDigest) == acceptedDigest)
  }

  function VerifiedKeys(signatures: seq<Signature>, keyring: set<nat>): (keys: seq<nat>)
    ensures |keys| <= |signatures|
  {
    if signatures == [] then []
    else (if signatures[0].verifies && signatures[0].keyId in keyring then [signatures[0].keyId] else []) + VerifiedKeys(signatures[1..], keyring)
  }

  // ---------------------------------------------------------------- protected state

  datatype Candidate = Candidate(
    artifactDigests: seq<nat>, expiresAt: int, issuedAt: int, healthPlan: string, manifestDigest: Digest,
    manifestId: string, sequence: int, slot: string, verifiedKeyIds: seq<nat>)

  datatype Tombstone = Tombstone(manifestDigest: Digest, sequence: int)

  datatype State = State(
    active: Option<Candidate>, pending: Option<Candidate>, lastAborted: Option<Tombstone>, highestSeen: int, identity: LocalContext)

  predicate ValidCandidate(c: Candidate, local: LocalContext) {
    && c.sequence >= 1 && c.slot == local.slot && c.issuedAt < c.expiresAt
    && 1 <= |c.artifactDigests| <= 64 && Ascending(c.artifactDigests)
    && 1 <= |c.verifiedKeyIds| <= 4 && Ascending(c.verifiedKeyIds)
  }

  predicate ValidState(s: State, local: LocalContext) {
    && s.identity == local && s.highestSeen >= 1
    && (s.active.Some? ==> ValidCandidate(s.active.value, local))
    && (s.pending.Some? ==> ValidCandidate(s.pending.value, local))
    && (s.lastAborted.Some? ==> s.lastAborted.value.sequence >= 1)
    && (s.active.Some? ==> s.active.value.sequence <= s.highestSeen)
    && (s.lastAborted.Some? ==>
          s.lastAborted.value.sequence <= s.highestSeen && (s.active.Some? ==> s.lastAborted.value.sequence != s.active.value.sequence))
    && (s.pending.Some? ==>
          && s.pending.value.sequence == s.highestSeen
          && (s.active.Some? ==> s.pending.value.sequence > s.active.value.sequence)
          && (s.lastAborted.Some? ==> s.pending.value.sequence > s.lastAborted.value.sequence))
    && (|| (s.active.Some? && s.active.value.sequence == s.highestSeen)
        || (s.pending.Some? && s.pending.value.sequence == s.highestSeen)
        || (s.lastAborted.Some? && s.lastAborted.value.sequence == s.highestSeen))
  }

  function CandidateFor(e: Envelope, keyring: set<nat>): Candidate {
    var m := e.manifest;
    Candidate(SortedSet(m.artifacts), m.expiresAt, m.issuedAt, m.healthGates, e.manifestDigest, m.id, m.sequence, m.target.slot,
      SortedSet(VerifiedKeys(e.signatures, keyring)))
  }

  function HighestSeen(disk: Option<State>): int {
    if disk.Some? then disk.value.highestSeen else 0
  }

  function ActiveOf(disk: Option<State>): Option<Candidate> {
    if disk.Some? then disk.value.active else None
  }

  function WithPending(c: Candidate, local: LocalContext, prior: Option<State>): State {
    State(ActiveOf(prior), Some(c), if prior.Some? then prior.value.lastAborted else None, c.sequence, local)
  }

  predicate ArtifactLineage(m: Manifest, active: Option<Candidate>) {
    active.Some? ==> m.rollback.Some? && Sorted(m.rollback.value.artifactDigests) == active.value.artifactDigests
  }

  /** When a stored file lets a stage, a commit or an abort begin. */
  predicate Loads(disk: Option<State>, local: LocalContext) {
    disk.Some? ==> ValidState(disk.value, local)
  }

  predicate StageAccepted(disk: Option<State>, e: Envelope, local: LocalContext, keyring: set<nat>, now: int) {
    var active := ActiveOf(disk);
    && Loads(disk, local)
    && e.manifest.sequence > HighestSeen(disk)
    && (disk.Some? ==> disk.value.pending == None)
    && WellFormed(e, now)
    && (if active.Some? then FollowsLineage(e.manifest, active.value.sequence, Some(active.value.manifestDigest))
        else FollowsLineage(e.manifest, 0, None))
    && e.manifest.target == local
    && ArtifactLineage(e.manifest, active)
    && VerifiedKeys(e.signatures, keyring) != []
  }

  // ---------------------------------------------------------------- histories

  /** What the store has ever accepted. */
  datatype Event =
    | Staged(envelope: Envelope, keyring: set<nat>, now: int)
    | Committed
    | Aborted

  predicate CanHappen(disk: Option<State>, ev: Event, local: LocalContext) {
    match ev
    case Staged(e, keyring, now) => StageAccepted(disk, e, local, keyring, now)
    case _ => disk.Some? && Loads(disk, local) && disk.value.pending.Some?
  }

  function After(disk: Option<State>, ev: Event, local: LocalContext): Option<State> {
    match ev
    case Staged(e, keyring, now) => Some(WithPending(CandidateFor(e, keyring), local, disk))
    case _ =>
      if disk == None || disk.value.pending == None then disk
      else
        var s := disk.value;
        var p := s.pending.value;
        Some(s.(pending := None, active := if ev.Committed? then s.pending else s.active,
                lastAborted := if ev.Aborted? then Some(Tombstone(p.manifestDigest, p.sequence)) else s.lastAborted))
  }

  function Disk(h: seq<Event>, local: LocalContext): Option<State> {
    if h == [] then None else After(Disk(h[..|h| - 1], local), h[|h| - 1], local)
  }

  predicate Legal(h: seq<Event>, local: LocalContext) {
    h == [] || (Legal(h[..|h| - 1], local) && CanHappen(Disk(h[..|h| - 1], local), h[|h| - 1], local))
  }

  // ---------------------------------------------------------------- the store

  datatype Failure = Corrupt | Lifecycle | Rejected | Crashed
  datatype Outcome = Done | Failed(reason: Failure)

  /** A caller names the candidate that is pending in a file that loads. */
  predicate Names(disk: Option<State>, local: LocalContext, sequence: int, manifestDigest: Digest) {
    && disk.Some? && ValidState(disk.value, local) && disk.value.pending.Some?
    && disk.value.pending.value.sequence == sequence && disk.value.pending.value.manifestDigest == manifestDigest
  }

  class StateStore {
    const local: LocalContext
    var disk: Option<State>
    ghost var history: seq<Event>

    ghost predicate Valid()
      reads this
    {
      Legal(history, local) && disk == Disk(history, local)
    }

    constructor (local: LocalContext)
      ensures Valid() && history == [] && this.local == local
    {
      this.local := local;
      disk := None;
      history := [];
    }

    /** The atomic replacement: a crash leaves the old file or the new one. */
    method WriteLocked(state: State, ghost ev: Event) returns (r: Outcome)
      requires Valid() && CanHappen(disk, ev, local) && Some(state) == After(disk, ev, local)
      modifies this`disk, this`history
      ensures Valid()
      ensures r == Done || r == Failed(Crashed)
      ensures r == Done ==> history == old(history) + [ev]
      ensures history == old(history) || history == old(history) + [ev]
    {
      var crashed: bool, renamed: bool := *, *;
      if crashed && !renamed { return Failed(Crashed); }
      disk := Some(state);
      history := history + [ev];
      assert history[..|history| - 1] == old(history);
      r := if crashed then Failed(Crashed) else Done;
    }

    method Stage(e: Envelope, keyring: set<nat>, now: int) returns (r: Outcome)
      requires Valid()
      modifies this`disk, this`history
      ensures Valid()
      ensures r == Done || r == Failed(Crashed) ==> StageAccepted(old(disk), e, local, keyring, now)
      ensures StageAccepted(old(disk), e, local, keyring, now) ==> r == Done || r == Failed(Crashed)
      ensures r == Done ==> history == old(history) + [Staged(e, keyring, now)]
      ensures r != Done && r != Failed(Crashed) ==> history == old(history) && disk == old(disk)
      ensures history == old(history) || history == old(history) + [Staged(e, keyring, now)]
    {
      var s := disk;
      if s.Some? && !ValidState(s.value, local) { return Failed(Corrupt); }
      if e.manifest.sequence <= HighestSeen(s) { return Failed(Rejected); }
      if s.Some? && s.value.pending.Some? { return Failed(Lifecycle); }
      var active := ActiveOf(s);
      var sequence, digest := 0, None;
      if active.Some? { sequence, digest := active.value.sequence, Some(active.value.manifestDigest); }
      if !WellFormed(e, now) || !FollowsLineage(e.manifest, sequence, digest) { return Failed(Rejected); }
      if e.manifest.target != local || !ArtifactLineage(e.manifest, active) { return Failed(Rejected); }
      if VerifiedKeys(e.signatures, keyring) == [] { return Failed(Rejected); }
      r := WriteLocked(WithPending(CandidateFor(e, keyring), local, s), Staged(e, keyring, now));
    }

    /** The exact pending candidate, if the caller names it. */
    method RequireExactPending(sequence: int, manifestDigest: Digest) returns (pending: Option<Candidate>)
      requires Valid()
      ensures pending.Some? <==> Names(disk, local, sequence, manifestDigest)
      ensures pending.Some? ==> pending == disk.value.pending
    {
      if disk == None || !ValidState(disk.value, local) || disk.value.pending == None { return None; }
      var p := disk.value.pending.value;
      if p.sequence != sequence || p.manifestDigest != manifestDigest { return None; }
      pending := Some(p);
    }

    /** `healthy` is the verdict on the immutable runtime evidence for the pending candidate. */
    method Commit(sequence: int, manifestDigest: Digest, healthy: Candidate -> bool) returns (r: Outcome)
      requires Valid()
      modifies this`disk, this`history
      ensures Valid()
      ensures r == Done || r == Failed(Crashed) <==>
        Names(old(disk), local, sequence, manifestDigest) && healthy(old(disk).value.pending.value)
      ensures r == Done ==>
        && history == old(history) + [Committed]
        && disk == Some(old(disk).value.(active := old(disk).value.pending, pending := None))
      ensures r != Done && r != Failed(Crashed) ==> history == old(history) && disk == old(disk)
      ensures history == old(history) || history == old(history) + [Committed]
    {
      var pending := RequireExactPending(sequence, manifestDigest);
      if pending == None || !healthy(pending.value) { return Failed(Lifecycle); }
      r := WriteLocked(disk.value.(active := pending, pending := None), Committed);
    }

    method Abort(sequence: int, manifestDigest: Digest) returns (r: Outcome)
      requires Valid()
      modifies this`disk, this`history
      ensures Valid()
      ensures r == Done || r == Failed(Crashed) <==> Names(old(disk), local, sequence, manifestDigest)
      ensures r == Done ==>
        && history == old(history) + [Aborted]
        && disk == Some(old(disk).value.(lastAborted := Some(Tombstone(manifestDigest, sequence)), pending := None))
      ensures r != Done && r != Failed(Crashed) ==> history == old(history) && disk == old(disk)
      ensures history == old(history) || history == old(history) + [Aborted]
    {
      var pending := RequireExactPending(sequence, manifestDigest);
      if pending == None { return Failed(Lifecycle); }
      r := WriteLocked(disk.value.(lastAborted := Some(Tombstone(pending.value.manifestDigest, pending.value.sequence)), pending := None), Aborted);
    }
  }

  // ---------------------------------------------------------------- what every history keeps

  /** Sequences are those of the state's candidates, and a stage is always followed by its resolution. */
  predicate Tidy(s: State) {
    && s.highestSeen >= 1
    && (s.active.Some? ==> 1 <= s.active.value.sequence <= s.highestSeen)
    && (s.lastAborted.Some? ==>
          1 <= s.lastAborted.value.sequence <= s.highestSeen && (s.active.Some? ==> s.lastAborted.value.sequence != s.active.value.sequence))
    && (s.pending.Some? ==>
          && s.pending.value.sequence == s.highestSeen
          && (s.active.Some? ==> s.active.value.sequence < s.highestSeen)
          && (s.lastAborted.Some? ==> s.lastAborted.value.sequence < s.highestSeen))
    && (s.pending == None ==>
          || (s.active.Some? && s.active.value.sequence == s.highestSeen)
          || (s.lastAborted.Some? && s.lastAborted.value.sequence == s.highestSeen))
  }

  lemma StagedIsTidy(disk: Option<State>, e: Envelope, keyring: set<nat>, now: int, local: LocalContext)
    requires StageAccepted(disk, e, local, keyring, now)
    ensures Tidy(WithPending(CandidateFor(e, keyring), local, disk))
  {
  }

  /** A staged candidate's own metadata is valid exactly when its manifest has something to activate. */
  lemma CandidateValidity(e: Envelope, keyring: set<nat>, now: int, local: LocalContext)
    requires WellFormed(e, now) && e.manifest.target == local && VerifiedKeys(e.signatures, keyring) != []
    ensures ValidCandidate(CandidateFor(e, keyring), local) <==> e.manifest.active
  {
    var keys, artifacts := VerifiedKeys(e.signatures, keyring), e.manifest.artifacts;
    assert keys[0] in SortedSet(keys);
    if artifacts != [] { assert artifacts[0] in SortedSet(artifacts); }
  }

  /** A state that loads leads to one that loads, unless the candidate just staged is one to remove
      resources: that state no later operation accepts. */
  lemma StepKeepsValidState(disk: Option<State>, ev: Event, local: LocalContext)
    requires Loads(disk, local) && CanHappen(disk, ev, local)
    ensures After(disk, ev, local).Some?
    ensures ValidState(After(disk, ev, local).value, local) <==> (ev.Staged? ==> ev.envelope.manifest.active)
  {
    match ev
    case Staged(e, keyring, now) =>
      CandidateValidity(e, keyring, now, local);
      StagedIsTidy(disk, e, keyring, now, local);
      hide WellFormed, FollowsLineage, ArtifactLineage;
      hide ValidCandidate;
    case _ =>
      hide ValidCandidate;
  }

  /** Every legal history leaves a tidy state, and one that loads unless its last event staged a removal. */
  lemma {:induction false} HistoryState(h: seq<Event>, local: LocalContext)
    requires Legal(h, local) && h != []
    ensures var disk := Disk(h, local);
      && disk.Some? && Tidy(disk.value)
      && (ValidState(disk.value, local) <==> (h[|h| - 1].Staged? ==> h[|h| - 1].envelope.manifest.active))
    decreases |h|
  {
    var before, ev := h[..|h| - 1], h[|h| - 1];
    if before != [] {
      HistoryState(before, local);
    }
    StepKeepsValidState(Disk(before, local), ev, local);
    if ev.Staged? {
      StagedIsTidy(Disk(before, local), ev.envelope, ev.keyring, ev.now, local);
    }
    hide StageAccepted, ValidState;
  }

  /** Once a removal is staged, nothing can follow: the protected state no longer loads. */
  lemma {:induction false} StagedRemovalIsFinal(h: seq<Event>, local: LocalContext, i: nat)
    requires Legal(h, local) && i < |h| && h[i].Staged? && !h[i].envelope.manifest.active
    ensures i == |h| - 1
    decreases |h|
  {
    var before := h[..|h| - 1];
    if i < |h| - 1 {
      assert before[i] == h[i];
      StagedRemovalIsFinal(before, local, i);
      HistoryState(before, local);
      hide ValidState;
    }
  }

  /** Such a removal can be staged: the first envelope of all is accepted with nothing to activate, and the
      file it leaves does not load. */
  lemma {:induction false} RemovalIsStageable(local: LocalContext, keyId: nat) returns (e: Envelope, h: seq<Event>)
    ensures h == [Staged(e, {keyId}, 0)] && Legal(h, local)
    ensures e.manifest.sequence == 1 && e.manifest.artifacts == [] && !e.manifest.active
    ensures Disk(h, local).Some? && !ValidState(Disk(h, local).value, local) && !Loads(Disk(h, local), local)
    ensures forall ev :: !CanHappen(Disk(h, local), ev, local)
  {
    var m := Manifest("removal", 1, 0, MAX_ACTIVATION_TTL_SECONDS, None, false, [], None, local, "");
    e := Envelope(m, Of(m), [Signature(keyId, true)]);
    h := [Staged(e, {keyId}, 0)];
    assert VerifiedKeys(e.signatures, {keyId}) == [keyId] + VerifiedKeys(e.signatures[1..], {keyId});
    assert CanHappen(None, h[0], local);
    assert h[..|h| - 1] == [];
    assert Disk([], local) == None;
    HistoryState(h, local);
  }

  function SequenceAt(h: seq<Event>, i: nat): int
    requires i < |h| && h[i].Staged?
  {
    h[i].envelope.manifest.sequence
  }

  /** The replay floor is at least every sequence ever staged, and is the last of them. */
  lemma {:induction false} FloorCoversHistory(h: seq<Event>, local: LocalContext, i: nat)
    requires Legal(h, local) && i < |h| && h[i].Staged?
    ensures SequenceAt(h, i) <= HighestSeen(Disk(h, local))
    ensures (forall k | i < k < |h| :: !h[k].Staged?) ==> SequenceAt(h, i) == HighestSeen(Disk(h, local))
    decreases |h|
  {
    var before, ev := h[..|h| - 1], h[|h| - 1];
    if i < |h| - 1 {
      assert before[i] == h[i];
      FloorCoversHistory(before, local, i);
      if forall k | i < k < |h| :: !h[k].Staged? {
        forall k | i < k < |before| ensures !before[k].Staged? { assert before[k] == h[k]; }
      }
    }
    hide WellFormed, FollowsLineage, ArtifactLineage, ValidState;
  }

  /** Accepted sequences strictly increase: no sequence is staged twice, not even after an abort. */
  lemma {:induction false} SequencesIncrease(h: seq<Event>, local: LocalContext, i: nat, j: nat)
    requires Legal(h, local) && i < j < |h| && h[i].Staged? && h[j].Staged?
    ensures SequenceAt(h, i) < SequenceAt(h, j)
    decreases |h|
  {
    var before := h[..|h| - 1];
    assert before[i] == h[i];
    if j < |h| - 1 {
      assert before[j] == h[j];
      SequencesIncrease(before, local, i, j);
    } else {
      FloorCoversHistory(before, local, i);
      hide WellFormed, FollowsLineage, ArtifactLineage, ValidState;
    }
  }

  lemma {:induction false} LegalPrefix(h: seq<Event>, local: LocalContext, n: nat)
    requires Legal(h, local) && n <= |h|
    ensures Legal(h[..n], local)
    decreases |h|
  {
    if n < |h| {
      LegalPrefix(h[..|h| - 1], local, n);
      assert h[..|h| - 1][..n] == h[..n];
    } else {
      assert h[..n] == h;
    }
  }

  lemma LegalAt(h: seq<Event>, local: LocalContext, i: nat)
    requires Legal(h, local) && i < |h|
    ensures Legal(h[..i], local) && CanHappen(Disk(h[..i], local), h[i], local)
    ensures Disk(h[..i + 1], local) == After(Disk(h[..i], local), h[i], local)
  {
    LegalPrefix(h, local, i + 1);
    assert h[..i + 1][..i] == h[..i];
    hide CanHappen, After;
  }

  function StagedCandidate(ev: Event): Candidate
    requires ev.Staged?
  {
    CandidateFor(ev.envelope, ev.keyring)
  }

  /** A commit or an abort resolves the candidate that the event right before it staged. */
  lemma {:induction false} ResolutionFollowsStage(h: seq<Event>, local: LocalContext, i: nat)
    requires Legal(h, local) && i < |h| && !h[i].Staged?
    ensures i > 0 && h[i - 1].Staged?
    ensures Disk(h[..i], local).value.pending == Some(StagedCandidate(h[i - 1]))
  {
    LegalAt(h, local, i);
    assert i > 0;
    LegalAt(h, local, i - 1);
    hide StageAccepted, CandidateFor, ValidState;
  }

  predicate CommittedLast(h: seq<Event>, i: nat) {
    i < |h| && h[i].Committed? && forall k | i < k < |h| :: !h[k].Committed?
  }

  /** The active last-known-good is the candidate of the latest commit, whatever was aborted since. */
  lemma {:induction false} ActiveIsLatestCommit(h: seq<Event>, local: LocalContext, i: nat)
    requires Legal(h, local) && CommittedLast(h, i)
    ensures i > 0 && h[i - 1].Staged?
    ensures ActiveOf(Disk(h, local)) == Some(StagedCandidate(h[i - 1]))
    decreases |h|
  {
    ResolutionFollowsStage(h, local, i);
    if i == |h| - 1 {
      LegalAt(h, local, i);
      assert h[..i + 1] == h;
    } else {
      var before := h[..|h| - 1];
      assert before[i] == h[i] && before[i - 1] == h[i - 1];
      forall k | i < k < |before| ensures !before[k].Committed? { assert before[k] == h[k]; }
      ActiveIsLatestCommit(before, local, i);
    }
    hide StageAccepted, CandidateFor, ValidState;
  }

  lemma {:induction false} NoActiveBeforeCommit(h: seq<Event>, local: LocalContext)
    requires Legal(h, local) && forall k | 0 <= k < |h| :: !h[k].Committed?
    ensures ActiveOf(Disk(h, local)) == None
    decreases |h|
  {
    if h != [] {
      var before := h[..|h| - 1];
      forall k | 0 <= k < |before| ensures !before[k].Committed? { assert before[k] == h[k]; }
      NoActiveBeforeCommit(before, local);
    }
    hide StageAccepted, CandidateFor, ValidState;
  }

  /** No staged candidate is ever dropped: only its own commit or abort can come next. */
  lemma StagesAreResolved(h: seq<Event>, local: LocalContext, i: nat)
    requires Legal(h, local) && i + 1 < |h| && h[i].Staged?
    ensures !h[i + 1].Staged?
  {
    LegalAt(h, local, i);
    LegalAt(h, local, i + 1);
    hide CandidateFor, ValidState, WellFormed, FollowsLineage, ArtifactLineage;
  }

  predicate AbortedLast(h: seq<Event>, i: nat) {
    i < |h| && h[i].Aborted? && forall k | i < k < |h| :: !h[k].Aborted?
  }

  /** The tombstone names the candidate of the latest abort, whatever was staged or committed since. */
  lemma {:induction false} TombstoneIsLatestAbort(h: seq<Event>, local: LocalContext, i: nat)
    requires Legal(h, local) && AbortedLast(h, i)
    ensures i > 0 && h[i - 1].Staged?
    ensures var c := StagedCandidate(h[i - 1]);
      Disk(h, local).Some? && Disk(h, local).value.lastAborted == Some(Tombstone(c.manifestDigest, c.sequence))
    decreases |h|
  {
    ResolutionFollowsStage(h, local, i);
    if i == |h| - 1 {
      LegalAt(h, local, i);
      assert h[..i + 1] == h;
    } else {
      var before := h[..|h| - 1];
      assert before[i] == h[i] && before[i - 1] == h[i - 1];
      forall k | i < k < |before| ensures !before[k].Aborted? { assert before[k] == h[k]; }
      TombstoneIsLatestAbort(before, local, i);
    }
    hide StageAccepted, CandidateFor, ValidState;
  }

  /** No sequence is ever both committed and aborted. */
  lemma NeverBothCommittedAndAborted(h: seq<Event>, local: LocalContext, i: nat, j: nat)
    requires Legal(h, local) && i < |h| && j < |h| && h[i].Committed? && h[j].Aborted?
    ensures i > 0 && j > 0 && h[i - 1].Staged? && h[j - 1].Staged?
    ensures SequenceAt(h, i - 1) != SequenceAt(h, j - 1)
  {
    hide *;
    ResolutionFollowsStage(h, local, i);
    ResolutionFollowsStage(h, local, j);
    if i < j { SequencesIncrease(h, local, i - 1, j - 1); } else { SequencesIncrease(h, local, j - 1, i - 1); }
  }

  /** Whatever aborts lie between them, each commit names the one before it: its digest, its sequence and
      its artifacts. */
  lemma CommitsFormAChain(h: seq<Event>, local: LocalContext, i: nat, j: nat)
    requires Legal(h, local) && i < j < |h| && h[i].Committed? && h[j].Committed?
    requires forall k | i < k < j :: !h[k].Committed?
    ensures i > 0 && h[i - 1].Staged? && h[j - 1].Staged?
    ensures var earlier, m := StagedCandidate(h[i - 1]), h[j - 1].envelope.manifest;
      && m.previous == Some(earlier.manifestDigest) && m.rollback.Some?
      && m.rollback.value.sequence == earlier.sequence && m.rollback.value.manifestDigest == earlier.manifestDigest
      && Sorted(m.rollback.value.artifactDigests) == earlier.artifactDigests
  {
    ResolutionFollowsStage(h, local, j);
    LegalAt(h, local, j - 1);
    var before := h[..j - 1];
    assert before[i] == h[i];
    forall k | i < k < |before| ensures !before[k].Committed? { assert before[k] == h[k]; }
    ActiveIsLatestCommit(before, local, i);
    assert before[i - 1] == h[i - 1];
    HistoryState(before, local);
    hide CandidateFor, ValidState;
  }

  /** With nothing committed yet only sequence 1 can be staged, so aborting the first candidate leaves a
      state in which no candidate is ever accepted again. */
  lemma {:induction false} FirstAbortIsFinal(h: seq<Event>, local: LocalContext)
    requires Legal(h, local) && |h| >= 2 && h[1].Aborted?
    ensures |h| == 2 && SequenceAt(h, 0) == 1
    decreases |h|
  {
    ResolutionFollowsStage(h, local, 1);
    LegalAt(h, local, 0);
    assert SequenceAt(h, 0) == 1;
    if |h| > 2 {
      LegalAt(h, local, 1);
      LegalAt(h, local, 2);
    }
  }

  // ---------------------------------------------------------------- what a candidate rests on

  /** A key counts exactly when it is pinned and one of its signatures verifies. */
  lemma {:induction false} VerifiedKeysExactly(signatures: seq<Signature>, keyring: set<nat>, k: nat)
    ensures k in VerifiedKeys(signatures, keyring)
       <==> k in keyring && exists i | 0 <= i < |signatures| :: signatures[i] == Signature(k, true)
    decreases |signatures|
  {
    if signatures != [] {
      VerifiedKeysExactly(signatures[1..], keyring, k);
      var counts := exists i | 0 <= i < |signatures| :: signatures[i] == Signature(k, true);
      if counts {
        var i :| 0 <= i < |signatures| && signatures[i] == Signature(k, true);
        if i > 0 { assert signatures[1..][i - 1] == Signature(k, true); }
      }
      if i :| 0 <= i < |signatures[1..]| && signatures[1..][i] == Signature(k, true) {
        assert signatures[i + 1] == Signature(k, true);
      }
    }
  }

  /** A key that is pinned and whose signature on the envelope verifies. */
  predicate Signs(k: nat, ev: Event)
    requires ev.Staged?
  {
    k in ev.keyring && exists i | 0 <= i < |ev.envelope.signatures| :: ev.envelope.signatures[i] == Signature(k, true)
  }

  /** What a candidate records is what a staged envelope says: its identity and times, exactly its artifacts,
      and exactly the pinned keys that sign it, of which there is one. */
  ghost predicate RestsOn(c: Candidate, ev: Event) {
    && ev.Staged?
    && var e := ev.envelope;
       && c.sequence == e.manifest.sequence && c.manifestId == e.manifest.id && c.manifestDigest == Of(e.manifest)
       && c.slot == e.manifest.target.slot
       && c.issuedAt == e.manifest.issuedAt && c.expiresAt == e.manifest.expiresAt && c.healthPlan == e.manifest.healthGates
       && Ascending(c.artifactDigests) && (forall a :: a in c.artifactDigests <==> a in e.manifest.artifacts)
       && Ascending(c.verifiedKeyIds) && (forall k :: k in c.verifiedKeyIds <==> Signs(k, ev))
       && exists k :: Signs(k, ev)
  }

  lemma AcceptedRestsOn(disk: Option<State>, ev: Event, local: LocalContext)
    requires ev.Staged? && StageAccepted(disk, ev.envelope, local, ev.keyring, ev.now)
    ensures RestsOn(StagedCandidate(ev), ev)
  {
    var e, c := ev.envelope, StagedCandidate(ev);
    var keys := VerifiedKeys(e.signatures, ev.keyring);
    assert keys != [] && e.manifestDigest == Of(e.manifest);
    hide StageAccepted;
    forall k ensures k in c.verifiedKeyIds <==> Signs(k, ev) {
      VerifiedKeysExactly(e.signatures, ev.keyring, k);
    }
    assert keys[0] in c.verifiedKeyIds;
    assert Signs(keys[0], ev);
  }

  lemma StagedRestsOn(h: seq<Event>, local: LocalContext, i: nat)
    requires Legal(h, local) && i < |h| && h[i].Staged?
    ensures RestsOn(StagedCandidate(h[i]), h[i])
  {
    LegalAt(h, local, i);
    AcceptedRestsOn(Disk(h[..i], local), h[i], local);
    hide *;
  }

  lemma {:induction false} LatestCommit(h: seq<Event>) returns (i: nat)
    requires exists k :: 0 <= k < |h| && h[k].Committed?
    ensures CommittedLast(h, i)
    decreases |h|
  {
    i := |h| - 1;
    if !h[i].Committed? {
      var before := h[..|h| - 1];
      var k :| 0 <= k < |h| && h[k].Committed?;
      assert before[k].Committed?;
      i := LatestCommit(before);
    }
  }

  /** In every history the pending candidate rests on the last event. */
  lemma PendingRestsOnEnvelope(h: seq<Event>, local: LocalContext)
    requires Legal(h, local) && Disk(h, local).Some? && Disk(h, local).value.pending.Some?
    ensures h != [] && RestsOn(Disk(h, local).value.pending.value, h[|h| - 1])
  {
    assert h[..|h|] == h;
    LegalAt(h, local, |h| - 1);
    if h[|h| - 1].Staged? { StagedRestsOn(h, local, |h| - 1); }
    hide StageAccepted, CandidateFor, RestsOn, ValidState;
  }

  /** In every history the active candidate rests on the event before the latest commit. */
  lemma ActiveRestsOnEnvelope(h: seq<Event>, local: LocalContext) returns (i: nat)
    requires Legal(h, local) && ActiveOf(Disk(h, local)).Some?
    ensures 0 < i && CommittedLast(h, i) && RestsOn(ActiveOf(Disk(h, local)).value, h[i - 1])
  {
    if forall k | 0 <= k < |h| :: !h[k].Committed? { NoActiveBeforeCommit(h, local); }
    i := LatestCommit(h);
    ActiveIsLatestCommit(h, local, i);
    StagedRestsOn(h, local, i - 1);
    hide *;
  }

  // ---------------------------------------------------------------- which states and envelopes are acceptable

  /** The sequences a state records: of the active and the pending candidate and of the tombstone. */
  function Recorded(s: State): set<int> {
    (if s.active.Some? then {s.active.value.sequence} else {}) + (if s.pending.Some? then {s.pending.value.sequence} else {})
    + (if s.lastAborted.Some? then {s.lastAborted.value.sequence} else {})
  }

  /** A stored state loads exactly when it is this node's, its candidates are whole, the sequences it records are
      distinct and positive with the replay floor as the greatest, and a pending one is the greatest. */
  lemma ValidStatesExactly(s: State, local: LocalContext)
    ensures ValidState(s, local) <==>
      && s.identity == local
      && (forall c | s.active == Some(c) || s.pending == Some(c) ::
            && c.slot == local.slot && c.issuedAt < c.expiresAt && 1 <= |c.artifactDigests| <= 64 && 1 <= |c.verifiedKeyIds| <= 4
            && (forall i, j | 0 <= i < j < |c.artifactDigests| :: c.artifactDigests[i] < c.artifactDigests[j])
            && forall i, j | 0 <= i < j < |c.verifiedKeyIds| :: c.verifiedKeyIds[i] < c.verifiedKeyIds[j])
      && s.highestSeen in Recorded(s) && (forall n | n in Recorded(s) :: 1 <= n <= s.highestSeen)
      && (s.pending.Some? ==> s.pending.value.sequence == s.highestSeen)
      && (s.active.Some? && s.pending.Some? ==> s.active.value.sequence != s.pending.value.sequence)
      && (s.active.Some? && s.lastAborted.Some? ==> s.active.value.sequence != s.lastAborted.value.sequence)
      && (s.pending.Some? && s.lastAborted.Some? ==> s.pending.value.sequence != s.lastAborted.value.sequence)
  {
    if s.active.Some? { assert s.active.value.sequence in Recorded(s); }
    if s.pending.Some? { assert s.pending.value.sequence in Recorded(s); }
    if s.lastAborted.Some? { assert s.lastAborted.value.sequence in Recorded(s); }
  }

  lemma TailAscends(first: nat, rest: seq<nat>)
    requires Ascending([first] + rest)
    ensures Ascending(rest) && forall v | v in rest :: first < v
  {
    var r := [first] + rest;
    forall v | v in rest ensures first < v {
      var k :| 0 <= k < |rest| && rest[k] == v;
      assert r[0] < r[k + 1];
    }
    forall i, j | 0 <= i < j < |rest| ensures rest[i] < rest[j] { assert r[i + 1] < r[j + 1]; }
  }

  lemma HeadAscends(first: nat, rest: seq<nat>)
    requires Ascending(rest) && forall v | v in rest :: first < v
    ensures Ascending([first] + rest)
  {
    var r := [first] + rest;
    forall i, j | 0 <= i < j < |r| ensures r[i] < r[j] { assert r[j] == rest[j - 1] && rest[j - 1] in rest; }
  }

  lemma {:induction false} InsertStrict(x: nat, s: seq<nat>)
    requires NonDescending(s) && Ascending(Insert(x, s))
    ensures Ascending(s) && x !in s
    decreases |s|
  {
    if s != [] {
      if x <= s[0] {
        TailAscends(x, s);
      } else {
        TailAscends(s[0], Insert(x, s[1..]));
        InsertStrict(x, s[1..]);
        HeadAscends(s[0], s[1..]);
        assert s == [s[0]] + s[1..];
      }
    }
    hide Ascending, NonDescending;
  }

  lemma {:induction false} SortedStrict(xs: seq<nat>)
    requires Ascending(Sorted(xs))
    ensures Distinct(xs)
    decreases |xs|
  {
    if xs != [] {
      InsertStrict(xs[0], Sorted(xs[1..]));
      SortedStrict(xs[1..]);
      forall i, j | 0 <= i < j < |xs| ensures xs[i] != xs[j] {
        assert xs[j] == xs[1..][j - 1] && xs[j] in xs[1..];
        if i > 0 { assert xs[i] == xs[1..][i - 1]; }
      }
    }
  }

  /** The envelope of a live manifest for this node, signed by a pinned key, that is the first one ever or goes
      on from the active one. */
  predicate Acceptable(disk: Option<State>, e: Envelope, local: LocalContext, keyring: set<nat>, now: int) {
    var m := e.manifest;
    && m.target == local && e.manifestDigest == Of(m)
    && now - 3600 <= m.issuedAt <= now + 300 && now < m.expiresAt && m.issuedAt < m.expiresAt <= m.issuedAt + 3600
    && |m.artifacts| <= 64 && (m.active <==> m.artifacts != [])
    && |e.signatures| <= 4 && (exists i | 0 <= i < |e.signatures| :: e.signatures[i].verifies && e.signatures[i].keyId in keyring)
    && match disk
       case None => m.sequence == 1 && m.previous == None && m.rollback == None
       case Some(s) =>
         && ValidState(s, local) && s.pending == None && s.active.Some? && m.sequence > s.highestSeen
         && m.previous == Some(s.active.value.manifestDigest) && m.rollback.Some?
         && m.rollback.value.sequence == s.active.value.sequence && m.rollback.value.manifestDigest == s.active.value.manifestDigest
         && Sorted(m.rollback.value.artifactDigests) == s.active.value.artifactDigests
  }

  lemma SomeKeyVerifies(signatures: seq<Signature>, keyring: set<nat>)
    ensures VerifiedKeys(signatures, keyring) != []
       <==> exists i | 0 <= i < |signatures| :: signatures[i].verifies && signatures[i].keyId in keyring
  {
    var keys := VerifiedKeys(signatures, keyring);
    if keys != [] {
      assert keys[0] in keys;
      VerifiedKeysExactly(signatures, keyring, keys[0]);
      var i :| 0 <= i < |signatures| && signatures[i] == Signature(keys[0], true);
      assert signatures[i].verifies && signatures[i].keyId in keyring;
    }
    if i :| 0 <= i < |signatures| && signatures[i].verifies && signatures[i].keyId in keyring {
      VerifiedKeysExactly(signatures, keyring, signatures[i].keyId);
      assert signatures[i] == Signature(signatures[i].keyId, true);
    }
  }

  /** An envelope is staged on what is stored exactly then. */
  lemma AcceptanceExactly(disk: Option<State>, e: Envelope, local: LocalContext, keyring: set<nat>, now: int)
    ensures StageAccepted(disk, e, local, keyring, now) <==> Acceptable(disk, e, local, keyring, now)
  {
    SomeKeyVerifies(e.signatures, keyring);
    if e.manifest.rollback.Some? && Ascending(Sorted(e.manifest.rollback.value.artifactDigests)) {
      SortedStrict(e.manifest.rollback.value.artifactDigests);
    }
    hide VerifiedKeys, Sorted;
  }

  /** Whatever is staged is for this node, not yet expired, was issued at most an hour before and five minutes
      after, and expires within an hour and five minutes. */
  lemma StagedIsTimely(h: seq<Event>, local: LocalContext, i: nat)
    requires Legal(h, local) && i < |h| && h[i].Staged?
    ensures var m, now := h[i].envelope.manifest, h[i].now;
      m.target == local && now - 3600 <= m.issuedAt <= now + 300 && now < m.expiresAt <= now + 3900 && m.issuedAt < m.expiresAt
  {
    LegalAt(h, local, i);
  }

  lemma {:induction false} SortedIsIdentity(s: seq<nat>)
    requires Ascending(s)
    ensures Sorted(s) == s
    decreases |s|
  {
    if s != [] {
      SortedIsIdentity(s[1..]);
      assert s == [s[0]] + s[1..];
    }
  }

  /** After any history that leaves something active and nothing pending, the next sequence is stageable with
      any artifacts: the store never closes on its own. */
  lemma {:induction false} UpgradeIsStageable(h: seq<Event>, local: LocalContext, artifacts: seq<nat>, keyId: nat, now: int) returns (ev: Event)
    requires Legal(h, local) && h != [] && !h[|h| - 1].Staged? && ActiveOf(Disk(h, local)).Some? && 1 <= |artifacts| <= 64
    ensures ev.Staged? && ev.now == now && ev.keyring == {keyId} && ev.envelope.manifest.artifacts == artifacts
    ensures ev.envelope.manifest.sequence == HighestSeen(Disk(h, local)) + 1
    ensures Legal(h + [ev], local) && ValidState(Disk(h + [ev], local).value, local)
  {
    HistoryState(h, local);
    var s := Disk(h, local).value;
    var active := s.active.value;
    var rollback := Rollback(active.sequence, active.manifestDigest, active.artifactDigests);
    var m := Manifest("upgrade", s.highestSeen + 1, now, now + 60, Some(active.manifestDigest), true, artifacts, Some(rollback), local, "");
    var e := Envelope(m, Of(m), [Signature(keyId, true)]);
    ev := Staged(e, {keyId}, now);
    SortedIsIdentity(active.artifactDigests);
    VerifiedKeysExactly(e.signatures, {keyId}, keyId);
    assert e.signatures[0] == Signature(keyId, true);
    SettledAfterResolution(h, local);
    assert StageAccepted(Disk(h, local), e, local, {keyId}, now);
    var h' := h + [ev];
    assert h'[..|h'| - 1] == h;
    HistoryState(h', local);
  }

  lemma SettledAfterResolution(h: seq<Event>, local: LocalContext)
    requires Legal(h, local) && h != [] && !h[|h| - 1].Staged?
    ensures Disk(h, local).Some? && Disk(h, local).value.pending == None
  {
    LegalAt(h, local, |h| - 1);
    assert h[..|h|] == h;
  }
}
