/**
 The installer's phase ledger over crashes, failures, resumes and reconciles
 (installer/vivo_cp_installer.py, `PhaseLedger`, `InstallerEngine.run`, `_run_phase`, `_phase_secrets`).
 */
module InstallerLedger {
  import opened Options

  // ---------------------------------------------------------------- the ledger's contents

  /** Phases are places in the fixed order: preflight, answers, confirmation, release, bootstrap, secrets,
      ansible, summary. */
  const PHASES: nat := 8
  const RELEASE: nat := 3
  const SECRETS: nat := 5
  const ANSIBLE: nat := 6
  const SUMMARY: nat := 7

  datatype PhaseStatus = Pending | Running | Completed | Failed
  datatype Kind = Install | Reconcile
  datatype Status = NotStarted | Active | Broken | Complete | DryRunComplete

  datatype Run = Run(number: nat, kind: Kind, status: Status, resumed: nat, failures: seq<nat>)

  datatype Ledger = Ledger(
    dryRun: bool, status: Status, currentPhase: Option<nat>, runCount: nat, reconcileCount: nat,
    runs: seq<Run>, phases: seq<PhaseStatus>, releaseId: Option<string>)

  predicate Finished(s: Status) {
    s == Complete || s == DryRunComplete
  }

  predicate AllCompleted(v: Ledger) {
    |v.phases| == PHASES && forall k | 0 <= k < PHASES :: v.phases[k] == Completed
  }

  // ---------------------------------------------------------------- what each operation makes of it

  function Created(dryRun: bool): Ledger {
    Ledger(dryRun, NotStarted, None, 1, 0, [Run(1, Install, Active, 0, [])],
      [Pending, Pending, Pending, Pending, Pending, Pending, Pending, Pending], None)
  }

  function LastRun(v: Ledger): Run
    requires v.runs != []
  {
    v.runs[|v.runs| - 1]
  }

  function WithLastRun(v: Ledger, r: Run): Ledger
    requires v.runs != []
  {
    v.(runs := v.runs[|v.runs| - 1 := r])
  }

  function PhaseStarted(v: Ledger, p: nat): Ledger
    requires p < |v.phases|
  {
    v.(status := Active, currentPhase := Some(p), phases := v.phases[p := Running])
  }

  function PhaseCompleted(v: Ledger, p: nat): Ledger
    requires p < |v.phases|
  {
    v.(currentPhase := None, phases := v.phases[p := Completed])
  }

  function PhaseFailed(v: Ledger, p: nat): Ledger
    requires p < |v.phases| && v.runs != []
  {
    var r := LastRun(v);
    WithLastRun(v.(status := Broken, currentPhase := Some(p), phases := v.phases[p := Failed]),
      r.(status := Broken, failures := r.failures + [p]))
  }

  function Ended(v: Ledger): Ledger
    requires v.runs != []
  {
    var s := if v.dryRun then DryRunComplete else Complete;
    WithLastRun(v.(status := s, currentPhase := None), LastRun(v).(status := s))
  }

  function Resumed(v: Ledger): Ledger
    requires v.runs != []
  {
    var r := LastRun(v);
    WithLastRun(v.(status := Active), r.(resumed := r.resumed + 1, status := Active))
  }

  predicate ReconcileAllowed(v: Ledger) {
    !v.dryRun && v.status == Complete && AllCompleted(v)
  }

  function Reconciled(v: Ledger): Ledger
    requires |v.phases| == PHASES
  {
    v.(runCount := v.runCount + 1, reconcileCount := v.reconcileCount + 1,
       runs := v.runs + [Run(v.runCount + 1, Reconcile, Active, 0, [])],
       phases := v.phases[RELEASE := Pending][ANSIBLE := Pending][SUMMARY := Pending],
       status := Active, currentPhase := None)
  }

  /** What loading checks. */
  predicate Loadable(v: Ledger) {
    |v.phases| == PHASES && v.runs != [] && v.runCount == |v.runs|
  }

  // ---------------------------------------------------------------- what the file always satisfies

  /** A reconcile run leaves all but release, ansible and summary as they are. */
  predicate Kept(v: Ledger, k: nat) {
    |v.runs| > 1 && k != RELEASE && k != ANSIBLE && k != SUMMARY
  }

  /** Kept phases stay completed, and behind the first open phase everything else is pending: in an
      install run the completed phases are a prefix, in a reconcile run the kept ones and a prefix of
      release, ansible, summary. */
  predicate InOrder(v: Ledger) {
    && |v.phases| == PHASES
    && (forall k | 0 <= k < PHASES :: Kept(v, k) ==> v.phases[k] == Completed)
    && (forall j, k | 0 <= j < k < PHASES :: v.phases[j] != Completed ==> Kept(v, k) || v.phases[k] == Pending)
  }

  predicate RunsInOrder(v: Ledger) {
    && v.runs != [] && v.runCount == |v.runs| && v.reconcileCount == |v.runs| - 1
    && (forall i | 0 <= i < |v.runs| :: v.runs[i].number == i + 1 && v.runs[i].kind == if i == 0 then Install else Reconcile)
    && (forall i | 0 <= i < |v.runs| - 1 :: v.runs[i].status == Complete)
    && (v.dryRun ==> |v.runs| == 1)
  }

  predicate Sound(v: Ledger) {
    && InOrder(v) && RunsInOrder(v)
    && (Finished(v.status) ==> AllCompleted(v) && v.currentPhase == None && v.status == if v.dryRun then DryRunComplete else Complete)
    && (if v.status == NotStarted then LastRun(v).status == Active else LastRun(v).status == v.status)
    && (v.currentPhase.Some? ==> v.currentPhase.value < PHASES && v.phases[v.currentPhase.value] in {Running, Failed})
    && (v.status == Broken ==> v.currentPhase.Some? && v.phases[v.currentPhase.value] == Failed)
  }

  /** The first phase not completed. */
  predicate FirstOpen(v: Ledger, p: nat) {
    p < |v.phases| && v.phases[p] != Completed && forall k | 0 <= k < p :: v.phases[k] == Completed
  }

  /** What completed phases have left behind: the secrets in their file, the release in the ledger. */
  predicate Backed(v: Ledger, secrets: Option<seq<string>>) {
    && |v.phases| == PHASES
    && (v.phases[SECRETS] == Completed ==> secrets.Some?)
    && (v.phases[RELEASE] == Completed ==> v.releaseId.Some?)
  }

  lemma CreatedIsSound(dryRun: bool)
    ensures Sound(Created(dryRun))
  {
    var v := Created(dryRun);
    assert forall k | 0 <= k < PHASES :: v.phases[k] == Pending;
  }

  lemma StartKeepsSound(v: Ledger, p: nat)
    requires Sound(v) && !Finished(v.status) && FirstOpen(v, p) && LastRun(v).status == Active
    ensures Sound(PhaseStarted(v, p)) && FirstOpen(PhaseStarted(v, p), p)
  {
  }

  lemma CompleteKeepsSound(v: Ledger, p: nat)
    requires Sound(v) && v.status == Active && FirstOpen(v, p)
    ensures Sound(PhaseCompleted(v, p)) && forall k | 0 <= k <= p :: PhaseCompleted(v, p).phases[k] == Completed
  {
  }

  lemma FailKeepsSound(v: Ledger, p: nat)
    requires Sound(v) && v.status == Active && FirstOpen(v, p)
    ensures Sound(PhaseFailed(v, p))
  {
  }

  lemma EndKeepsSound(v: Ledger)
    requires Sound(v) && AllCompleted(v)
    ensures Sound(Ended(v)) && Finished(Ended(v).status)
  {
  }

  lemma ResumeKeepsSound(v: Ledger)
    requires Sound(v) && !Finished(v.status)
    ensures Sound(Resumed(v))
  {
  }

  lemma ReconcileKeepsSound(v: Ledger)
    requires Sound(v) && ReconcileAllowed(v)
    ensures Sound(Reconciled(v))
  {
    var w := Reconciled(v);
    assert forall k | 0 <= k < PHASES :: w.phases[k] == if k == RELEASE || k == ANSIBLE || k == SUMMARY then Pending else Completed;
  }

  /** How one stored ledger may follow another: earlier runs are final, and a further run is added only
      to a completed installation. */
  predicate Grows(a: Ledger, b: Ledger) {
    && a.runs != [] && |a.runs| <= |b.runs| && a.dryRun == b.dryRun
    && (forall i | 0 <= i < |a.runs| - 1 :: b.runs[i] == a.runs[i])
    && (|a.runs| < |b.runs| ==> b.runs[|a.runs| - 1].status == Complete)
  }

  lemma {:induction false} GrowsTransitive(a: Ledger, b: Ledger, c: Ledger)
    requires Grows(a, b) && Grows(b, c)
    ensures Grows(a, c)
  {
  }

  // ---------------------------------------------------------------- the files and the object over them

  /** The protected files; `executed` records the phases whose work was begun, in order. */
  class Installation {
    var ledger: Option<Ledger>
    var secrets: Option<seq<string>>
    ghost var executed: seq<nat>

    constructor ()
      ensures ledger == None && secrets == None && executed == []
    {
      ledger := None;
      secrets := None;
      executed := [];
    }

    ghost predicate Valid()
      reads this
    {
      ledger.Some? ==> Sound(ledger.value) && Backed(ledger.value, secrets)
    }

    /** An atomic write: a crash leaves the old file or the new one. */
    method WriteLedger(v: Ledger) returns (crashed: bool)
      modifies this`ledger
      ensures !crashed ==> ledger == Some(v)
      ensures ledger == old(ledger) || ledger == Some(v)
    {
      var renamed: bool := *;
      crashed := *;
      if renamed || !crashed { ledger := Some(v); }
    }

    /** Secrets are generated only when there are none. */
    method EnsureSecrets(generated: seq<string>) returns (crashed: bool)
      modifies this`secrets
      ensures old(secrets).Some? ==> secrets == old(secrets) && !crashed
      ensures old(secrets) == None ==> (secrets == None && crashed) || secrets == Some(generated)
    {
      crashed := false;
      if secrets == None {
        var renamed: bool := *;
        crashed := *;
        if renamed || !crashed { secrets := Some(generated); }
      }
    }
  }

  class PhaseLedger {
    const files: Installation
    var value: Ledger

    constructor (files: Installation, value: Ledger)
      ensures this.files == files && this.value == value
    {
      this.files := files;
      this.value := value;
    }

    method Save() returns (crashed: bool)
      modifies files`ledger
      ensures !crashed ==> files.ledger == Some(value)
      ensures files.ledger == old(files.ledger) || files.ledger == Some(value)
    {
      crashed := files.WriteLedger(value);
    }

    predicate CompletedPhase(p: nat)
      requires p < |value.phases|
      reads this
    {
      value.phases[p] == Completed
    }

    method StartPhase(p: nat) returns (crashed: bool)
      requires p < |value.phases|
      modifies this`value, files`ledger
      ensures value == PhaseStarted(old(value), p)
      ensures !crashed ==> files.ledger == Some(value)
      ensures files.ledger == old(files.ledger) || files.ledger == Some(value)
    {
      value := PhaseStarted(value, p);
      crashed := Save();
    }

    method CompletePhase(p: nat) returns (crashed: bool)
      requires p < |value.phases|
      modifies this`value, files`ledger
      ensures value == PhaseCompleted(old(value), p)
      ensures !crashed ==> files.ledger == Some(value)
      ensures files.ledger == old(files.ledger) || files.ledger == Some(value)
    {
      value := PhaseCompleted(value, p);
      crashed := Save();
    }

    method FailPhase(p: nat) returns (crashed: bool)
      requires p < |value.phases| && value.runs != []
      modifies this`value, files`ledger
      ensures value == PhaseFailed(old(value), p)
      ensures !crashed ==> files.ledger == Some(value)
      ensures files.ledger == old(files.ledger) || files.ledger == Some(value)
    {
      value := PhaseFailed(value, p);
      crashed := Save();
    }

    method Finish() returns (crashed: bool)
      requires value.runs != []
      modifies this`value, files`ledger
      ensures value == Ended(old(value))
      ensures !crashed ==> files.ledger == Some(value)
      ensures files.ledger == old(files.ledger) || files.ledger == Some(value)
    {
      value := Ended(value);
      crashed := Save();
    }

    method MarkResumed() returns (crashed: bool)
      requires value.runs != []
      modifies this`value, files`ledger
      ensures value == Resumed(old(value))
      ensures !crashed ==> files.ledger == Some(value)
      ensures files.ledger == old(files.ledger) || files.ledger == Some(value)
    {
      value := Resumed(value);
      crashed := Save();
    }

    method PrepareReconcile() returns (refused: bool, crashed: bool)
      modifies this`value, files`ledger
      ensures refused <==> !ReconcileAllowed(old(value))
      ensures refused ==> value == old(value) && files.ledger == old(files.ledger) && !crashed
      ensures !refused ==> value == Reconciled(old(value))
      ensures !refused && !crashed ==> files.ledger == Some(value)
      ensures files.ledger == old(files.ledger) || files.ledger == Some(value)
    {
      if !ReconcileAllowed(value) { return true, false; }
      value := Reconciled(value);
      refused := false;
      crashed := Save();
    }
  }

  datatype Outcome = Done | Refused | Stopped(phase: nat) | Crashed

  /** What is started: a new installation, the resumption of one, or a reconcile of a finished one. */
  datatype Mode = NewInstall | Resume | ReconcileMode

  /** A running ledger whose first phases are done. */
  predicate Open(v: Ledger, i: nat) {
    && Sound(v) && !Finished(v.status) && LastRun(v).status == Active
    && i <= PHASES && forall k | 0 <= k < i :: v.phases[k] == Completed
  }

  /** What a phase's writes may leave in the file. */
  predicate Stored(v0: Ledger, v: Ledger) {
    Sound(v) && Grows(v0, v) && |v.runs| == |v0.runs|
  }

  /** The run at work is broken off with one more failure on record. */
  predicate Stumbled(before: seq<Run>, after: seq<Run>, p: nat) {
    && before != [] && |after| == |before|
    && after[|after| - 1] == before[|before| - 1].(status := Broken, failures := before[|before| - 1].failures + [p])
  }

  /** The runs an invocation has on record once it is open. */
  function Opened(mode: Mode, ledger: Option<Ledger>): seq<Run> {
    if mode.NewInstall? || ledger == None || ledger.value.runs == [] then [Run(1, Install, Active, 0, [])]
    else
      var runs := ledger.value.runs;
      var last := runs[|runs| - 1];
      if mode.Resume? then runs[..|runs| - 1] + [Run(last.number, last.kind, Active, last.resumed + 1, last.failures)]
      else runs + [Run(|runs| + 1, Reconcile, Active, 0, [])]
  }

  function Closed(runs: seq<Run>, status: Status): seq<Run> {
    if runs == [] then [] else runs[..|runs| - 1] + [runs[|runs| - 1].(status := status)]
  }

  lemma OpenShape(v: Ledger, p: nat)
    requires p < PHASES && Open(v, p)
    ensures |v.phases| == PHASES && v.runs != [] && Stored(v, v)
    ensures v.phases[p] == Completed ==> Open(v, p + 1)
  {
  }

  lemma {:induction false} PhaseSteps(v0: Ledger, p: nat, release: Option<string>)
    requires p < PHASES && Open(v0, p) && v0.phases[p] != Completed
    ensures |v0.phases| == PHASES && v0.runs != []
    ensures var w := PhaseStarted(v0, p).(releaseId := release);
      && Stored(v0, w) && |w.phases| == PHASES && w.runs != []
      && Stored(v0, PhaseCompleted(w, p)) && Open(PhaseCompleted(w, p), p + 1)
      && Stored(v0, PhaseFailed(w, p)) && PhaseFailed(w, p).status == Broken
      && PhaseCompleted(w, p).runs == v0.runs && Stumbled(v0.runs, PhaseFailed(w, p).runs, p)
      && PhaseFailed(w, p).currentPhase == Some(p)
  {
    StartKeepsSound(v0, p);
    var w := PhaseStarted(v0, p).(releaseId := release);
    assert Sound(w) && FirstOpen(w, p);
    CompleteKeepsSound(w, p);
    FailKeepsSound(w, p);
  }

  lemma BackedSteps(v0: Ledger, p: nat, release: Option<string>, secrets0: Option<seq<string>>, secrets: Option<seq<string>>)
    requires p < PHASES && Backed(v0, secrets0) && v0.runs != []
    requires secrets == secrets0 || (secrets0 == None && secrets.Some?)
    requires p == RELEASE || release == v0.releaseId
    ensures var w := PhaseStarted(v0, p).(releaseId := release);
      && Backed(w, secrets) && Backed(PhaseFailed(w, p), secrets)
      && ((p == SECRETS ==> secrets.Some?) && (p == RELEASE ==> release.Some?) ==> Backed(PhaseCompleted(w, p), secrets))
  {
  }

  predicate Refuses(mode: Mode, ledger: Option<Ledger>, secrets: Option<seq<string>>, dryRun: bool, answersReadable: bool, secretsReadable: bool) {
    match mode
    case NewInstall => ledger.Some?
    case Resume => ledger == None || Finished(ledger.value.status) || ledger.value.dryRun != dryRun || (secrets.Some? && !secretsReadable)
    case ReconcileMode =>
      || dryRun || ledger == None || ledger.value.status != Complete
      || !answersReadable || secrets == None || !secretsReadable
  }

  /** The ledger a run begins with. */
  function Begun(mode: Mode, ledger: Option<Ledger>, dryRun: bool): Ledger {
    match mode
    case NewInstall => Created(dryRun)
    case Resume => if ledger.Some? && ledger.value.runs != [] then Resumed(ledger.value) else Created(dryRun)
    case ReconcileMode => if ledger.Some? && |ledger.value.phases| == PHASES then Reconciled(ledger.value) else Created(dryRun)
  }

  /** The phases below `n` that a run still has to do. */
  function Unfinished(phases: seq<PhaseStatus>, n: nat): seq<nat>
    requires n <= |phases|
  {
    if n == 0 then [] else Unfinished(phases, n - 1) + if phases[n - 1] == Completed then [] else [n - 1]
  }

  lemma {:induction false} BegunIsOpen(mode: Mode, ledger: Option<Ledger>, secrets: Option<seq<string>>, dryRun: bool, answersReadable: bool, secretsReadable: bool)
    requires ledger.Some? ==> Sound(ledger.value)
    requires !Refuses(mode, ledger, secrets, dryRun, answersReadable, secretsReadable)
    ensures var v := Begun(mode, ledger, dryRun);
      && Open(v, 0) && Stored(v, v) && |v.phases| == PHASES && (ledger.Some? ==> Grows(ledger.value, ledger.value) && Grows(ledger.value, v))
  {
    match mode
    case NewInstall => CreatedIsSound(dryRun);
    case Resume => ResumeKeepsSound(ledger.value);
    case ReconcileMode => ReconcileKeepsSound(ledger.value);
  }

  /** Whether an invocation has to run a phase, seen from the ledger it finds. */
  predicate Needs(mode: Mode, ledger: Option<Ledger>, p: nat) {
    match mode
    case NewInstall => true
    case Resume => ledger.Some? && p < |ledger.value.phases| && ledger.value.phases[p] != Completed
    case ReconcileMode => p == RELEASE || p == ANSIBLE || p == SUMMARY
  }

  /** The phases run since `before` are, in order, exactly those below `n` that had to be. */
  ghost predicate Ran(before: seq<nat>, after: seq<nat>, mode: Mode, ledger: Option<Ledger>, n: nat) {
    && n <= PHASES && |before| <= |after| && after[..|before|] == before
    && (forall i, j | |before| <= i < j < |after| :: after[i] < after[j])
    && (forall p: nat :: p in after[|before|..] <==> p < n && Needs(mode, ledger, p))
  }

  lemma {:induction false} UnfinishedExactly(phases: seq<PhaseStatus>, n: nat)
    requires n <= |phases|
    ensures forall i, j | 0 <= i < j < |Unfinished(phases, n)| :: Unfinished(phases, n)[i] < Unfinished(phases, n)[j]
    ensures forall p: nat :: p in Unfinished(phases, n) <==> p < n && phases[p] != Completed
  {
    if n > 0 {
      UnfinishedExactly(phases, n - 1);
      var u := Unfinished(phases, n - 1);
      forall i | 0 <= i < |u| ensures u[i] < n - 1 { assert u[i] in u; }
    }
  }

  lemma BegunNeeds(mode: Mode, ledger: Option<Ledger>, secrets: Option<seq<string>>, dryRun: bool, answersReadable: bool, secretsReadable: bool)
    requires ledger.Some? ==> Sound(ledger.value)
    requires !Refuses(mode, ledger, secrets, dryRun, answersReadable, secretsReadable)
    ensures var v := Begun(mode, ledger, dryRun);
      && |v.phases| == PHASES && (forall p: nat | p < PHASES :: v.phases[p] != Completed <==> Needs(mode, ledger, p))
      && v.runs == Opened(mode, ledger) && v.dryRun == dryRun
      && (ledger.Some? && Backed(ledger.value, secrets) ==> Backed(v, secrets)) && (ledger == None ==> Backed(v, secrets))
  {
    if ledger.Some? {
      var runs := ledger.value.runs;
      assert runs != [];
      if mode.Resume? { assert Begun(mode, ledger, dryRun).runs == Opened(mode, ledger); }
    }
  }

  /** What was run, in terms of the ledger that was found. */
  lemma UnfinishedRan(before: seq<nat>, mode: Mode, ledger: Option<Ledger>, phases: seq<PhaseStatus>, n: nat)
    requires n <= PHASES == |phases| && forall p: nat | p < PHASES :: phases[p] != Completed <==> Needs(mode, ledger, p)
    ensures Ran(before, before + Unfinished(phases, n), mode, ledger, n)
  {
    UnfinishedExactly(phases, n);
    hide Unfinished, Needs;
    var after := before + Unfinished(phases, n);
    assert after[|before|..] == Unfinished(phases, n);
  }

  lemma NothingRan(before: seq<nat>, mode: Mode, ledger: Option<Ledger>)
    requires ledger.Some? ==> Sound(ledger.value)
    ensures Ran(before, before, mode, ledger, 0) && (ledger.Some? ==> Grows(ledger.value, ledger.value))
  {
  }

  lemma StoredTransitive(a: Ledger, b: Ledger, c: Ledger)
    requires Stored(a, b) && Stored(b, c)
    ensures Stored(a, c)
  {
    GrowsTransitive(a, b, c);
    hide Sound, Grows;
  }

  lemma StoredAfter(before: Option<Ledger>, begun: Ledger, v: Ledger)
    requires Stored(begun, v) && (before.Some? ==> Grows(before.value, begun))
    ensures Sound(v) && (before.Some? ==> Grows(before.value, v)) && |v.runs| == |begun.runs|
  {
    if before.Some? { GrowsTransitive(before.value, begun, v); }
    hide Sound, Grows;
  }

  lemma EndIsStored(begun: Ledger, v: Ledger)
    requires Stored(begun, v) && Open(v, PHASES)
    ensures v.runs != [] && Stored(begun, Ended(v)) && Finished(Ended(v).status) && AllCompleted(Ended(v))
    ensures forall secrets :: Backed(v, secrets) ==> secrets.Some? && Ended(v).releaseId.Some?
    ensures forall secrets :: Backed(v, secrets) ==> Backed(Ended(v), secrets)
    ensures Ended(v).runs == Closed(v.runs, if begun.dryRun then DryRunComplete else Complete)
  {
    EndKeepsSound(v);
  }

  // ---------------------------------------------------------------- what a sound ledger means

  /** In an install run the completed phases are a prefix of the order. */
  lemma InstallIsAPrefix(v: Ledger)
    requires Sound(v) && |v.runs| == 1
    ensures exists n: nat :: DoneExactly(v, n)
  {
    var n := 0;
    while n < PHASES && v.phases[n] == Completed
      invariant n <= PHASES && forall k | 0 <= k < n :: v.phases[k] == Completed
    {
      n := n + 1;
    }
    assert DoneExactly(v, n);
  }

  predicate DoneExactly(v: Ledger, n: nat) {
    n <= PHASES == |v.phases| && forall k | 0 <= k < PHASES :: v.phases[k] == Completed <==> k < n
  }

  /** In a reconcile run the other phases stay completed, and release, ansible, summary complete in that
      order. */
  lemma ReconcileIsAPrefix(v: Ledger)
    requires Sound(v) && |v.runs| > 1
    ensures forall k | 0 <= k < PHASES && k !in {RELEASE, ANSIBLE, SUMMARY} :: v.phases[k] == Completed
    ensures v.phases[SUMMARY] == Completed ==> v.phases[ANSIBLE] == Completed
    ensures v.phases[ANSIBLE] == Completed ==> v.phases[RELEASE] == Completed
  {
    assert !Kept(v, ANSIBLE) && !Kept(v, SUMMARY);
  }

  /** A reconcile repeats exactly release, ansible and summary. */
  lemma ReconcileRepeatsThree(v: Ledger)
    requires Sound(v) && ReconcileAllowed(v)
    ensures Unfinished(Reconciled(v).phases, PHASES) == [RELEASE, ANSIBLE, SUMMARY]
  {
    var phases := Reconciled(v).phases;
    assert forall k | 0 <= k < PHASES :: phases[k] == if k == RELEASE || k == ANSIBLE || k == SUMMARY then Pending else Completed;
    assert Unfinished(phases, 1) == [];
    assert Unfinished(phases, 2) == [];
    assert Unfinished(phases, 3) == [];
    assert Unfinished(phases, 4) == [3];
    assert Unfinished(phases, 5) == [3];
    assert Unfinished(phases, 6) == [3];
    assert Unfinished(phases, 7) == [3, 6];
  }

  class InstallerEngine {
    const files: Installation
    const dryRun: bool

    constructor (files: Installation, dryRun: bool)
      ensures this.files == files && this.dryRun == dryRun
    {
      this.files := files;
      this.dryRun := dryRun;
    }

    /** The work of a phase beyond the ledger: any result, or a crash; the secrets phase writes the
        secrets file, the release phase records the release in the ledger. */
    method Work(ledger: PhaseLedger, p: nat, generated: seq<string>) returns (failed: bool, crashed: bool)
      requires ledger.files == files
      modifies ledger`value, files`ledger, files`secrets
      ensures ledger.value == old(ledger.value).(releaseId := ledger.value.releaseId)
      ensures p != RELEASE ==> ledger.value == old(ledger.value)
      ensures files.ledger == old(files.ledger) || files.ledger == Some(ledger.value)
      ensures p != RELEASE ==> files.ledger == old(files.ledger)
      ensures old(files.secrets).Some? || p != SECRETS ==> files.secrets == old(files.secrets)
      ensures files.secrets == old(files.secrets) || (old(files.secrets) == None && files.secrets == Some(generated))
      ensures !failed && !crashed ==> (p == SECRETS ==> files.secrets.Some?) && (p == RELEASE ==> ledger.value.releaseId.Some?)
    {
      failed, crashed := *, *;
      if failed || crashed { return; }
      if p == SECRETS {
        crashed := files.EnsureSecrets(generated);
      } else if p == RELEASE {
        var release: string := *;
        ledger.value := ledger.value.(releaseId := Some(release));
        crashed := ledger.Save();
      }
    }

    method RunPhase(ledger: PhaseLedger, p: nat, generated: seq<string>) returns (r: Outcome)
      requires ledger.files == files && p < PHASES
      requires Open(ledger.value, p) && files.ledger == Some(ledger.value) && Backed(ledger.value, files.secrets)
      modifies ledger`value, files
      ensures files.ledger.Some? && Stored(old(ledger.value), files.ledger.value) && Backed(files.ledger.value, files.secrets)
      ensures old(files.secrets).Some? ==> files.secrets == old(files.secrets)
      ensures old(ledger.value).phases[p] == Completed ==>
        r == Done && ledger.value == old(ledger.value) && files.ledger == old(files.ledger) && files.executed == old(files.executed)
      ensures files.executed == old(files.executed) || files.executed == old(files.executed) + [p]
      ensures r == Done ==> Open(ledger.value, p + 1) && files.ledger == Some(ledger.value) && |ledger.value.phases| == PHASES
      ensures r == Done ==> ledger.value.runs == old(ledger.value).runs
      ensures r.Stopped? ==> Stumbled(old(ledger.value).runs, files.ledger.value.runs, p)
      ensures r == Done && old(ledger.value).phases[p] != Completed ==>
        && files.executed == old(files.executed) + [p] && ledger.value.phases == old(ledger.value).phases[p := Completed]
      ensures r.Stopped? ==> r.phase == p && files.ledger.value.status == Broken && files.ledger.value.currentPhase == Some(p) && files.executed == old(files.executed) + [p]
      ensures r != Refused
    {
      ghost var v0 := ledger.value;
      OpenShape(v0, p);
      if ledger.CompletedPhase(p) { return Done; }
      PhaseSteps(v0, p, v0.releaseId);
      assert PhaseStarted(v0, p).(releaseId := v0.releaseId) == PhaseStarted(v0, p);
      ghost var secrets0 := files.secrets;
      BackedSteps(v0, p, v0.releaseId, secrets0, secrets0);
      hide Stored, Open, Sound, Stumbled, Backed;
      var crashed := ledger.StartPhase(p);
      if crashed { return Crashed; }
      files.executed := files.executed + [p];
      var failed;
      failed, crashed := Work(ledger, p, generated);
      PhaseSteps(v0, p, ledger.value.releaseId);
      BackedSteps(v0, p, ledger.value.releaseId, secrets0, files.secrets);
      if crashed { return Crashed; }
      if failed {
        crashed := ledger.FailPhase(p);
        return if crashed then Crashed else Stopped(p);
      }
      crashed := ledger.CompletePhase(p);
      return if crashed then Crashed else Done;
    }

    /** Opens the ledger for a run, or refuses. A resumed run reads the secrets only when they are there. */
    method Begin(mode: Mode, answersReadable: bool, secretsReadable: bool) returns (ledger: PhaseLedger, r: Outcome)
      requires files.Valid()
      modifies files`ledger
      ensures fresh(ledger) && ledger.files == files
      ensures r == Done || r == Crashed || r == Refused
      ensures r == Refused <==> Refuses(mode, old(files.ledger), old(files.secrets), dryRun, answersReadable, secretsReadable)
      ensures r == Refused ==> files.ledger == old(files.ledger)
      ensures r == Done ==> files.ledger == Some(ledger.value) && ledger.value == Begun(mode, old(files.ledger), dryRun)
      ensures r != Refused ==> files.ledger == old(files.ledger) || files.ledger == Some(Begun(mode, old(files.ledger), dryRun))
    {
      ledger := new PhaseLedger(files, Created(dryRun));
      match mode {
        case NewInstall =>
          if files.ledger.Some? { r := Refused; return; }
          var crashed := ledger.Save();
          r := if crashed then Crashed else Done;
        case Resume =>
          if files.ledger == None || !Loadable(files.ledger.value) { r := Refused; return; }
          ledger := new PhaseLedger(files, files.ledger.value);
          if Finished(ledger.value.status) || ledger.value.dryRun != dryRun { r := Refused; return; }
          if files.secrets.Some? && !secretsReadable { r := Refused; return; }
          var crashed := ledger.MarkResumed();
          r := if crashed then Crashed else Done;
        case ReconcileMode =>
          if dryRun || files.ledger == None || !Loadable(files.ledger.value) { r := Refused; return; }
          ledger := new PhaseLedger(files, files.ledger.value);
          if ledger.value.dryRun || ledger.value.status != Complete { r := Refused; return; }
          if !answersReadable || files.secrets == None || !secretsReadable { r := Refused; return; }
          var refused, crashed := ledger.PrepareReconcile();
          r := if refused then Refused else if crashed then Crashed else Done;
      }
    }

    /** All phases in order, from the ledger a run begins with. */
    method RunPhases(ledger: PhaseLedger, generated: seq<string>) returns (r: Outcome, ghost n: nat)
      requires ledger.files == files && Open(ledger.value, 0) && files.ledger == Some(ledger.value)
      requires |ledger.value.phases| == PHASES && Stored(ledger.value, ledger.value) && Backed(ledger.value, files.secrets)
      modifies ledger`value, files
      ensures files.ledger.Some? && Stored(old(ledger.value), files.ledger.value) && Backed(files.ledger.value, files.secrets) && r != Refused
      ensures old(files.secrets).Some? ==> files.secrets == old(files.secrets)
      ensures n <= PHASES && files.executed == old(files.executed) + Unfinished(old(ledger.value).phases, n)
      ensures r == Done ==> n == PHASES && Open(ledger.value, PHASES) && files.ledger == Some(ledger.value) && ledger.value.runs == old(ledger.value).runs
      ensures r.Stopped? ==>
        && n == r.phase + 1 && files.ledger.value.status == Broken && files.ledger.value.currentPhase == Some(r.phase)
        && Stumbled(old(ledger.value).runs, files.ledger.value.runs, r.phase)
    {
      hide Sound, Grows, Stored, Open, Stumbled, Backed;
      n := 0;
      ghost var begun, executed := ledger.value, files.executed;
      var p := 0;
      while p < PHASES
        invariant p <= PHASES == |begun.phases| == |ledger.value.phases|
        invariant Open(ledger.value, p) && files.ledger == Some(ledger.value) && Stored(begun, ledger.value)
        invariant Backed(ledger.value, files.secrets)
        invariant old(files.secrets).Some? ==> files.secrets == old(files.secrets)
        invariant forall k | p <= k < PHASES :: ledger.value.phases[k] == begun.phases[k]
        invariant files.executed == executed + Unfinished(begun.phases, p) && n == p && ledger.value.runs == begun.runs
      {
        ghost var v0 := ledger.value;
        r := RunPhase(ledger, p, generated);
        StoredTransitive(begun, v0, files.ledger.value);
        n := if files.executed == executed + Unfinished(begun.phases, p) then p else p + 1;
        if r.Stopped? { n := p + 1; }
        if r != Done { return; }
        n := p + 1;
        p := p + 1;
      }
      r := Done;
    }

    /** One invocation of the installer. The flags say whether the stored answers and the stored
        secrets pass their checks; `generated` is what the secrets phase would generate. */
    method Start(mode: Mode, generated: seq<string>, answersReadable: bool, secretsReadable: bool) returns (r: Outcome, ghost n: nat)
      requires files.Valid()
      modifies files
      ensures files.Valid()
      ensures r == Refused <==> Refuses(mode, old(files.ledger), old(files.secrets), dryRun, answersReadable, secretsReadable)
      ensures r == Refused ==> files.ledger == old(files.ledger) && files.executed == old(files.executed)
      ensures old(files.secrets).Some? ==> files.secrets == old(files.secrets)
      ensures old(files.ledger).Some? ==> files.ledger.Some? && Grows(old(files.ledger).value, files.ledger.value)
      ensures Ran(old(files.executed), files.executed, mode, old(files.ledger), n)
      ensures r == Done ==>
        && n == PHASES && files.ledger.Some? && Finished(files.ledger.value.status) && AllCompleted(files.ledger.value) && files.secrets.Some? && files.ledger.value.releaseId.Some?
        && files.ledger.value.runs == Closed(Opened(mode, old(files.ledger)), if dryRun then DryRunComplete else Complete)
      ensures r.Stopped? ==>
        && n == r.phase + 1 && files.ledger.Some? && files.ledger.value.status == Broken && files.ledger.value.currentPhase == Some(r.phase)
        && Stumbled(Opened(mode, old(files.ledger)), files.ledger.value.runs, r.phase)
    {
      hide Sound, Grows, Stored, Open, Begun, Refuses, Finished, AllCompleted, Ran, Stumbled, Opened, Closed, Needs, Unfinished, Backed;
      ghost var before, executed := files.ledger, files.executed;
      ghost var begun := Begun(mode, before, dryRun);
      NothingRan(executed, mode, before);
      n := 0;
      var ledger: PhaseLedger;
      ledger, r := Begin(mode, answersReadable, secretsReadable);
      if r == Refused { return; }
      BegunNeeds(mode, before, files.secrets, dryRun, answersReadable, secretsReadable);
      BegunIsOpen(mode, before, files.secrets, dryRun, answersReadable, secretsReadable);
      if r == Crashed { return; }
      r, n := RunPhases(ledger, generated);
      UnfinishedRan(executed, mode, before, begun.phases, n);
      StoredAfter(before, begun, files.ledger.value);
      if r != Done { return; }
      EndIsStored(begun, ledger.value);
      var crashed := ledger.Finish();
      StoredAfter(before, begun, files.ledger.value);
      r := if crashed then Crashed else Done;
    }
  }
}
