/**
 The database-restore journal and its reconciliation with the databases that exist
 (deploy/scripts/controller_restore_journal.py, driven by
 deploy/playbooks/restore-replacement-controller.yml).
 */
module RestoreJournal {
  import opened Options

  // ---------------------------------------------------------------- names

  predicate NameChar(c: char) {
    'a' <= c <= 'z' || '0' <= c <= '9' || c == '_'
  }

  predicate DatabaseName(s: string) {
    2 <= |s| <= 63 && 'a' <= s[0] <= 'z' && forall i | 0 <= i < |s| :: NameChar(s[i])
  }

  /** A restore is bound to the first 16 hexadecimal digits of its archive's digest. */
  datatype Identity = Identity(token: string) {
    function Main(): string { "vivolution" }
    function Import(): string { "vivolution_import_" + token }
    function Previous(): string { "vivolution_preimport_" + token }
    function Failed(): string { "vivolution_failedimport_" + token }

    function Relevant(): set<string> { {Main(), Import(), Previous(), Failed()} }
  }

  predicate HexToken(s: string) {
    |s| == 16 && forall i | 0 <= i < |s| :: '0' <= s[i] <= '9' || 'a' <= s[i] <= 'f'
  }

  lemma NamesAreDistinct(id: Identity)
    requires HexToken(id.token)
    ensures |id.Main()| == 10 && |id.Import()| == 34 && |id.Previous()| == 37 && |id.Failed()| == 40
  {
  }

  /** `"|".join(names)`. */
  function Joined(names: seq<string>): string {
    if names == [] then ""
    else if |names| == 1 then names[0]
    else names[0] + "|" + Joined(names[1..])
  }

  lemma {:induction false} FirstName(a: string, rest: string, b: string, rest': string)
    requires '|' !in a && '|' !in b && a + "|" + rest == b + "|" + rest'
    ensures a == b && rest == rest'
  {
    var x, y := a + "|" + rest, b + "|" + rest';
    assert x[|a|] == '|' && y[|b|] == '|';
    assert forall i | 0 <= i < |a| :: x[i] in a;
    assert forall i | 0 <= i < |b| :: y[i] in b;
    assert |a| == |b|;
    assert a == x[..|a|] && b == y[..|b|] && rest == x[|a| + 1..] && rest' == y[|b| + 1..];
  }

  predicate Names(names: seq<string>) {
    forall i | 0 <= i < |names| :: DatabaseName(names[i])
  }

  lemma {:induction false} JoinedHasBar(names: seq<string>)
    requires |names| > 1
    ensures '|' in Joined(names)
  {
    assert Joined(names)[|names[0]|] == '|';
  }

  /** The lookup key determines the list of names, and so the set that was sorted into it. */
  lemma {:induction false} KeyDeterminesNames(a: seq<string>, b: seq<string>)
    requires Names(a) && Names(b) && Joined(a) == Joined(b)
    ensures a == b
    decreases |a|
  {
    if a != [] { NoBar(a[0]); }
    if b != [] { NoBar(b[0]); }
    if |a| > 1 { JoinedHasBar(a); }
    if |b| > 1 { JoinedHasBar(b); }
    if |a| > 1 && |b| > 1 {
      FirstName(a[0], Joined(a[1..]), b[0], Joined(b[1..]));
      forall i | 0 <= i < |a[1..]| ensures DatabaseName(a[1..][i]) { assert a[1..][i] == a[i + 1]; }
      forall i | 0 <= i < |b[1..]| ensures DatabaseName(b[1..][i]) { assert b[1..][i] == b[i + 1]; }
      KeyDeterminesNames(a[1..], b[1..]);
      assert a == [a[0]] + a[1..] && b == [b[0]] + b[1..];
    }
  }

  lemma NoBar(s: string)
    requires DatabaseName(s)
    ensures '|' !in s && s != ""
  {
  }

  // ---------------------------------------------------------------- the journal

  datatype Phase =
    | ImportStarted | Prepared | SwapStarted | Selected | ReadinessVerified | RollbackStarted | RolledBack | Complete

  function Allowed(current: Option<Phase>): set<Phase> {
    match current
    case None => {ImportStarted}
    case Some(ImportStarted) => {Prepared}
    case Some(Prepared) => {SwapStarted}
    case Some(SwapStarted) => {Selected}
    case Some(Selected) => {ReadinessVerified, RollbackStarted}
    case Some(ReadinessVerified) => {Complete}
    case Some(RollbackStarted) => {RolledBack}
    case Some(RolledBack) => {}
    case Some(Complete) => {}
  }

  datatype Action =
    | Start | BeginImport | RestartImport | ResumePrepared | ResumeSwap | ResumeSelectedAfterSwap | ResumeReadiness
    | FinalizeComplete | ResumeRollback | FinalizeRollback | AlreadyRolledBack | AlreadyComplete

  /** The only safe next action, or a refusal. */
  function ReconcileAction(phase: Option<Phase>, observed: set<string>, id: Identity): Option<Action> {
    var relevant := observed * id.Relevant();
    var mainOnly, importing := {id.Main()}, {id.Main(), id.Import()};
    var selected, rolledBack := {id.Main(), id.Previous()}, {id.Main(), id.Failed()};
    if exists name | name in observed :: !DatabaseName(name) then None
    else
      match phase
      case None => if relevant == mainOnly then Some(Start) else None
      case Some(ImportStarted) =>
        if relevant == mainOnly then Some(BeginImport) else if relevant == importing then Some(RestartImport) else None
      case Some(Prepared) => if relevant == importing then Some(ResumePrepared) else None
      case Some(SwapStarted) =>
        if relevant == importing then Some(ResumeSwap) else if relevant == selected then Some(ResumeSelectedAfterSwap) else None
      case Some(Selected) => if relevant == selected then Some(ResumeReadiness) else None
      case Some(ReadinessVerified) => if relevant == selected then Some(FinalizeComplete) else None
      case Some(RollbackStarted) =>
        if relevant == selected then Some(ResumeRollback) else if relevant == rolledBack then Some(FinalizeRollback) else None
      case Some(RolledBack) => if relevant == rolledBack then Some(AlreadyRolledBack) else None
      case Some(Complete) => if relevant == selected then Some(AlreadyComplete) else None
  }

  // ---------------------------------------------------------------- the world and its steps

  /** What a database holds: the data from before the restore, a restore in progress, the verified archive,
      or something that is none of the restore's business. */
  datatype Content = Original | Partial | Imported | Unrelated

  datatype World = World(phase: Option<Phase>, databases: map<string, Content>)

  datatype Step = Mark(phase: Phase) | CreateImport | FillImport | DropImport | FailedDrop | Swap | Unswap | ClearJournal

  /** Renames take effect together, in one transaction. */
  function Do(w: World, step: Step, id: Identity): Option<World> {
    var d := w.databases;
    match step
    case Mark(next) => if next in Allowed(w.phase) then Some(w.(phase := Some(next))) else None
    case CreateImport => if id.Import() in d then None else Some(w.(databases := d[id.Import() := Partial]))
    case FillImport => if id.Import() in d && d[id.Import()] == Partial then Some(w.(databases := d[id.Import() := Imported])) else None
    case DropImport => Some(w.(databases := d - {id.Import()}))
    case FailedDrop => Some(w)
    case Swap =>
      if id.Main() in d && id.Import() in d && id.Previous() !in d
      then Some(w.(databases := (d - {id.Import()})[id.Previous() := d[id.Main()]][id.Main() := d[id.Import()]])) else None
    case Unswap =>
      if id.Main() in d && id.Previous() in d && id.Failed() !in d
      then Some(w.(databases := (d - {id.Previous()})[id.Failed() := d[id.Main()]][id.Main() := d[id.Previous()]])) else None
    case ClearJournal =>
      if w.phase in {Some(ImportStarted), Some(Prepared), Some(SwapStarted)} then Some(w.(phase := None)) else None
  }

  function ForwardPlan(): (plan: seq<Step>)
    ensures |plan| == 9
  {
    [Mark(ImportStarted), CreateImport, FillImport, Mark(Prepared), Mark(SwapStarted), Swap, Mark(Selected),
     Mark(ReadinessVerified), Mark(Complete)]
  }

  function BackwardPlan(): seq<Step> {
    [Mark(Selected), Mark(RollbackStarted), Unswap, Mark(RolledBack)]
  }

  /** What the playbook does for an action. */
  function MainPlan(a: Action): seq<Step> {
    match a
    case Start => ForwardPlan()
    case BeginImport => ForwardPlan()[1..]
    case RestartImport => [DropImport] + ForwardPlan()[1..]
    case ResumePrepared => ForwardPlan()[4..]
    case ResumeSwap => ForwardPlan()[5..]
    case ResumeSelectedAfterSwap => ForwardPlan()[6..]
    case ResumeReadiness => ForwardPlan()[7..]
    case FinalizeComplete => ForwardPlan()[8..]
    case ResumeRollback => BackwardPlan()[2..]
    case FinalizeRollback => BackwardPlan()[3..]
    case AlreadyRolledBack => []
    case AlreadyComplete => []
  }

  /** What its rescue section does: it rolls a selected import back, and gives an unselected one up. The drop's
      failure is ignored there. */
  function RescuePlan(a: Action, drops: bool): seq<Step> {
    match a
    case BeginImport => GiveUp(drops)
    case RestartImport => GiveUp(drops)
    case ResumePrepared => GiveUp(drops)
    case ResumeSwap => GiveUp(drops)
    case ResumeSelectedAfterSwap => BackwardPlan()
    case ResumeReadiness => BackwardPlan()[1..]
    case ResumeRollback => BackwardPlan()[2..]
    case FinalizeRollback => BackwardPlan()[3..]
    case _ => []
  }

  function GiveUp(drops: bool): seq<Step> {
    [if drops then DropImport else FailedDrop, ClearJournal]
  }

  function Perform(w: World, plan: seq<Step>, id: Identity): Option<World>
    decreases |plan|
  {
    if plan == [] then Some(w)
    else
      match Do(w, plan[0], id)
      case None => None
      case Some(next) => Perform(next, plan[1..], id)
  }

  /** One run: inspect, then the first `steps` steps of the plan before a failure or a crash; `drops` is
      whether the drop of a rescue succeeds. */
  datatype Attempt = Attempt(rescue: bool, drops: bool, steps: nat)

  function PlanOf(a: Action, t: Attempt): seq<Step> {
    if t.rescue then RescuePlan(a, t.drops) else MainPlan(a)
  }

  /** A refused inspection changes nothing; a forbidden step would be no world at all. */
  function Tried(w: World, t: Attempt, id: Identity): Option<World> {
    match ReconcileAction(w.phase, w.databases.Keys, id)
    case None => Some(w)
    case Some(a) =>
      var plan := PlanOf(a, t);
      Perform(w, plan[..if t.steps < |plan| then t.steps else |plan|], id)
  }

  function History(w: World, attempts: seq<Attempt>, id: Identity): Option<World>
    decreases |attempts|
  {
    if attempts == [] then Some(w)
    else
      match Tried(w, attempts[0], id)
      case None => None
      case Some(next) => History(next, attempts[1..], id)
  }

  // ---------------------------------------------------------------- the places of the protocol

  /** Forward places 0 to 9; after a failed selection, backward places 2 to 4; and where an unselected import
      was given up by halves: dropped with its journal kept, or left with its journal cleared. */
  datatype Place = Forward(k: nat) | Backward(b: nat) | Dropped(at: nat) | Left(content: Content)

  predicate Real(p: Place) {
    match p
    case Forward(k) => k <= 9
    case Backward(b) => 2 <= b <= 4
    case Dropped(k) => 4 <= k <= 5
    case Left(content) => content == Partial || content == Imported
  }

  predicate Stuck(p: Place) {
    p.Dropped? || p.Left?
  }

  function PhaseAt(p: Place): Option<Phase>
    requires Real(p)
  {
    match p
    case Forward(k) =>
      if k == 0 then None else if k <= 3 then Some(ImportStarted) else if k == 4 then Some(Prepared) else if k <= 6 then Some(SwapStarted)
      else if k == 7 then Some(Selected) else if k == 8 then Some(ReadinessVerified) else Some(Complete)
    case Backward(b) => if b < 4 then Some(RollbackStarted) else Some(RolledBack)
    case Dropped(k) => if k == 4 then Some(Prepared) else Some(SwapStarted)
    case Left(_) => None
  }

  function DatabasesAt(p: Place, id: Identity): map<string, Content>
    requires Real(p)
  {
    match p
    case Forward(k) =>
      if k <= 1 then map[id.Main() := Original]
      else if k == 2 then map[id.Main() := Original, id.Import() := Partial]
      else if k <= 5 then map[id.Main() := Original, id.Import() := Imported]
      else map[id.Main() := Imported, id.Previous() := Original]
    case Backward(b) =>
      if b == 2 then map[id.Main() := Imported, id.Previous() := Original]
      else map[id.Main() := Original, id.Failed() := Imported]
    case Dropped(_) => map[id.Main() := Original]
    case Left(content) => map[id.Main() := Original, id.Import() := content]
  }

  /** The world at a place, beside databases that have nothing to do with the restore. */
  function At(p: Place, others: map<string, Content>, id: Identity): World
    requires Real(p)
  {
    World(PhaseAt(p), others + DatabasesAt(p, id))
  }

  predicate Outside(others: map<string, Content>, id: Identity) {
    others.Keys !! id.Relevant() && forall name | name in others :: DatabaseName(name)
  }

  function ActionAt(p: Place): Action
    requires Real(p) && !Stuck(p)
  {
    match p
    case Forward(k) =>
      if k == 0 then Start else if k == 1 then BeginImport else if k <= 3 then RestartImport else if k == 4 then ResumePrepared
      else if k == 5 then ResumeSwap else if k == 6 then ResumeSelectedAfterSwap else if k == 7 then ResumeReadiness
      else if k == 8 then FinalizeComplete else AlreadyComplete
    case Backward(b) => if b == 2 then ResumeRollback else if b == 3 then FinalizeRollback else AlreadyRolledBack
  }

  lemma NamesAreValid(id: Identity)
    requires HexToken(id.token)
    ensures DatabaseName(id.Main()) && DatabaseName(id.Import()) && DatabaseName(id.Previous()) && DatabaseName(id.Failed())
  {
    assert forall i | 0 <= i < |id.token| :: NameChar(id.token[i]);
    assert DatabaseName("vivolution");
    PrefixedName("vivolution_import_", id.token);
    PrefixedName("vivolution_preimport_", id.token);
    PrefixedName("vivolution_failedimport_", id.token);
  }

  lemma PrefixedName(prefix: string, token: string)
    requires 2 <= |prefix| <= 30 && |token| == 16 && 'a' <= prefix[0] <= 'z'
    requires (forall i | 0 <= i < |prefix| :: NameChar(prefix[i])) && forall i | 0 <= i < |token| :: NameChar(token[i])
    ensures DatabaseName(prefix + token)
  {
  }

  /** Reconciliation recognises every place, whatever unrelated databases exist, but where an import was given
      up by halves. */
  lemma PlaceIsRecognised(p: Place, others: map<string, Content>, id: Identity)
    requires Real(p) && HexToken(id.token) && Outside(others, id)
    ensures var w := At(p, others, id); ReconcileAction(w.phase, w.databases.Keys, id) == if Stuck(p) then None else Some(ActionAt(p))
  {
    NamesAreValid(id);
    var w := At(p, others, id);
    var keys := DatabasesAt(p, id).Keys;
    WorldAt(p, others, id);
    assert w.databases.Keys == others.Keys + keys;
    assert keys <= id.Relevant();
    assert w.databases.Keys * id.Relevant() == keys;
    KeysAreTold(p, id);
    hide DatabaseName, HexToken, At, DatabasesAt;
  }

  /** The topologies of the places tell them apart. */
  lemma KeysAreTold(p: Place, id: Identity)
    requires Real(p) && HexToken(id.token)
    ensures DatabasesAt(p, id).Keys ==
      match p {
        case Forward(k) => if k <= 1 then {id.Main()} else if k <= 5 then {id.Main(), id.Import()} else {id.Main(), id.Previous()}
        case Backward(b) => if b == 2 then {id.Main(), id.Previous()} else {id.Main(), id.Failed()}
        case Dropped(_) => {id.Main()}
        case Left(_) => {id.Main(), id.Import()}
      }
    ensures id.Import() !in {id.Main(), id.Previous(), id.Failed()} && id.Previous() !in {id.Main(), id.Failed()} && id.Failed() != id.Main()
  {
    NamesAreDistinct(id);
    hide HexToken;
  }

  // ---------------------------------------------------------------- moving between places

  lemma ForwardStep(k: nat, others: map<string, Content>, id: Identity)
    requires k < 9 && HexToken(id.token) && Outside(others, id)
    ensures Do(At(Forward(k), others, id), ForwardPlan()[k], id) == Some(At(Forward(k + 1), others, id))
  {
    NamesAreDistinct(id);
    var d, d' := others + DatabasesAt(Forward(k), id), others + DatabasesAt(Forward(k + 1), id);
    if k == 1 {
      assert d[id.Import() := Partial] == d';
    } else if k == 2 {
      assert d[id.Import() := Imported] == d';
    } else if k == 5 {
      assert (d - {id.Import()})[id.Previous() := d[id.Main()]][id.Main() := d[id.Import()]] == d';
    }
  }

  lemma DropStep(k: nat, others: map<string, Content>, id: Identity)
    requires k == 2 || k == 3 || k == 1
    requires HexToken(id.token) && Outside(others, id)
    ensures Do(At(Forward(k), others, id), DropImport, id) == Some(At(Forward(1), others, id))
  {
    NamesAreDistinct(id);
    assert (others + DatabasesAt(Forward(k), id)) - {id.Import()} == others + DatabasesAt(Forward(1), id);
  }

  lemma BackwardStep(b: nat, others: map<string, Content>, id: Identity)
    requires 2 <= b < 4 && HexToken(id.token) && Outside(others, id)
    ensures Do(At(Backward(b), others, id), BackwardPlan()[b], id) == Some(At(Backward(b + 1), others, id))
  {
    NamesAreDistinct(id);
    var d := others + DatabasesAt(Backward(b), id);
    if b == 2 {
      assert (d - {id.Previous()})[id.Failed() := d[id.Main()]][id.Main() := d[id.Previous()]] == others + DatabasesAt(Backward(3), id);
    }
  }

  lemma RollbackStarts(others: map<string, Content>, id: Identity)
    ensures Do(At(Forward(7), others, id), BackwardPlan()[1], id) == Some(At(Backward(2), others, id))
  {
  }

  /** The plan is what remains to be done from the place. */
  predicate Fits(p: Place, plan: seq<Step>) {
    && Real(p)
    && match p
       case Forward(k) =>
         || plan == ForwardPlan()[k..] || plan == []
         || ((k == 2 || k == 3) && plan == [DropImport] + ForwardPlan()[1..])
         || (k == 6 && plan == BackwardPlan()) || (k == 7 && plan == BackwardPlan()[1..])
       case Backward(b) => plan == BackwardPlan()[b..] || plan == []
       case _ => plan == []
  }

  /** The rescue gives the import of this place up. */
  predicate GivesUp(p: Place, t: Attempt) {
    t.rescue && p.Forward? && 1 <= p.k <= 5
  }

  lemma PlansFit(p: Place, t: Attempt)
    requires Real(p) && !Stuck(p) && !GivesUp(p, t)
    ensures Fits(p, PlanOf(ActionAt(p), t))
  {
    assert ForwardPlan()[9..] == [] && ForwardPlan()[0..] == ForwardPlan() && BackwardPlan()[4..] == [];
  }

  /** Where the first step of a fitting plan leads. */
  function NextPlace(p: Place, plan: seq<Step>): (q: Place)
    requires Fits(p, plan) && plan != []
    ensures Real(q)
  {
    match p
    case Forward(k) =>
      if plan[0] == DropImport then Forward(1)
      else if plan[0] == Mark(RollbackStarted) then Backward(2)
      else if k < 9 then Forward(k + 1) else p
    case Backward(b) => if b < 4 then Backward(b + 1) else p
    case _ => p
  }

  lemma PlanTails(k: nat)
    requires k < 9
    ensures ForwardPlan()[k..] != [] && ForwardPlan()[k..][0] == ForwardPlan()[k] && ForwardPlan()[k..][1..] == ForwardPlan()[k + 1..]
  {
  }

  lemma FittingForward(k: nat, plan: seq<Step>, others: map<string, Content>, id: Identity)
    requires Fits(Forward(k), plan) && plan != [] && HexToken(id.token) && Outside(others, id)
    ensures var q := NextPlace(Forward(k), plan);
      Do(At(Forward(k), others, id), plan[0], id) == Some(At(q, others, id)) && Fits(q, plan[1..])
  {
    hide At, Do, Outside, HexToken;
    if plan == ForwardPlan()[k..] {
      assert k < 9 by { assert ForwardPlan()[9..] == []; }
      PlanTails(k);
      ForwardStep(k, others, id);
    } else if k == 2 || k == 3 {
      DropStep(k, others, id);
      assert plan[1..] == ForwardPlan()[1..];
    } else if k == 6 {
      ForwardStep(6, others, id);
      assert plan[1..] == BackwardPlan()[1..] && plan[0] == Mark(Selected);
    } else {
      RollbackStarts(others, id);
      assert plan[1..] == BackwardPlan()[2..] && plan[0] == Mark(RollbackStarted);
    }
  }

  lemma FittingStep(p: Place, plan: seq<Step>, others: map<string, Content>, id: Identity)
    requires Fits(p, plan) && plan != [] && HexToken(id.token) && Outside(others, id)
    ensures var q := NextPlace(p, plan);
      Do(At(p, others, id), plan[0], id) == Some(At(q, others, id)) && Fits(q, plan[1..])
  {
    hide At, Do, Outside, HexToken;
    if p.Forward? {
      FittingForward(p.k, plan, others, id);
    } else {
      assert BackwardPlan()[4..] == [];
      BackwardStep(p.b, others, id);
      assert BackwardPlan()[p.b..][1..] == BackwardPlan()[p.b + 1..];
    }
  }

  /** The place after the first `n` steps of a fitting plan. */
  function PlaceAfter(p: Place, plan: seq<Step>, n: nat): (q: Place)
    requires Real(p) && n <= |plan|
    ensures Real(q)
    decreases n
  {
    if n == 0 || !Fits(p, plan) || plan == [] then p else PlaceAfter(NextPlace(p, plan), plan[1..], n - 1)
  }

  lemma {:induction false} PerformFits(p: Place, plan: seq<Step>, n: nat, others: map<string, Content>, id: Identity)
    requires Fits(p, plan) && n <= |plan| && HexToken(id.token) && Outside(others, id)
    ensures Perform(At(p, others, id), plan[..n], id) == Some(At(PlaceAfter(p, plan, n), others, id))
    decreases n
  {
    hide At, Do, Outside, HexToken, Fits, NextPlace;
    if n > 0 {
      FittingStep(p, plan, others, id);
      assert plan[..n][0] == plan[0] && plan[..n][1..] == plan[1..][..n - 1];
      PerformFits(NextPlace(p, plan), plan[1..], n - 1, others, id);
    }
  }

  /** Where a given-up import ends, by whether it was dropped and whether the journal was cleared. */
  function GivenUp(k: nat, dropped: bool, cleared: bool): (q: Place)
    requires 1 <= k <= 5
    ensures Real(q)
  {
    if cleared then (if dropped || k == 1 then Forward(0) else if k == 2 then Left(Partial) else Left(Imported))
    else if !dropped then Forward(k)
    else if k <= 3 then Forward(1)
    else Dropped(k)
  }

  /** The place after one run. */
  function EndOf(p: Place, t: Attempt): (q: Place)
    requires Real(p)
    ensures Real(q)
  {
    if Stuck(p) then p
    else if GivesUp(p, t) then GivenUp(p.k, t.drops && t.steps >= 1, t.steps >= 2)
    else
      var plan := PlanOf(ActionAt(p), t);
      PlaceAfter(p, plan, if t.steps < |plan| then t.steps else |plan|)
  }

  function EndOfAll(p: Place, attempts: seq<Attempt>): (q: Place)
    requires Real(p)
    ensures Real(q)
    decreases |attempts|
  {
    if attempts == [] then p else EndOfAll(EndOf(p, attempts[0]), attempts[1..])
  }

  lemma DroppedWorld(k: nat, others: map<string, Content>, id: Identity)
    requires 1 <= k <= 5 && HexToken(id.token) && Outside(others, id)
    ensures Do(At(Forward(k), others, id), DropImport, id) == Some(At(GivenUp(k, true, false), others, id))
  {
    NamesAreDistinct(id);
    assert (others + DatabasesAt(Forward(k), id)) - {id.Import()} == others + DatabasesAt(Forward(1), id);
  }

  lemma ClearedWorld(k: nat, dropped: bool, others: map<string, Content>, id: Identity)
    requires 1 <= k <= 5
    ensures Do(At(GivenUp(k, dropped, false), others, id), ClearJournal, id) == Some(At(GivenUp(k, dropped, true), others, id))
  {
  }

  /** What a give-up comes to at any place, whether the drop takes effect and whether the journal is
      cleared. */
  lemma GiveUpPerforms(k: nat, drops: bool, n: nat, others: map<string, Content>, id: Identity)
    requires 1 <= k <= 5 && n <= 2 && HexToken(id.token) && Outside(others, id)
    ensures Perform(At(Forward(k), others, id), GiveUp(drops)[..n], id) == Some(At(GivenUp(k, drops && n >= 1, n >= 2), others, id))
  {
    var w, plan := At(Forward(k), others, id), GiveUp(drops)[..n];
    DroppedWorld(k, others, id);
    ClearedWorld(k, drops, others, id);
    hide At, Outside, HexToken, GivenUp;
    assert GivenUp(k, false, false) == Forward(k) by { GivenUpNothing(k); }
    assert Do(w, FailedDrop, id) == Some(w);
    if n == 0 {
      assert plan == [];
    } else {
      assert plan[1..] == if n == 1 then [] else [ClearJournal];
      assert [ClearJournal][1..] == [];
    }
  }

  lemma GivenUpNothing(k: nat)
    requires 1 <= k <= 5
    ensures GivenUp(k, false, false) == Forward(k)
  {
  }

  lemma AttemptEnds(p: Place, t: Attempt, others: map<string, Content>, id: Identity)
    requires Real(p) && HexToken(id.token) && Outside(others, id)
    ensures Tried(At(p, others, id), t, id) == Some(At(EndOf(p, t), others, id))
  {
    PlaceIsRecognised(p, others, id);
    WorldAt(p, others, id);
    hide At, Outside, HexToken, ReconcileAction, Perform, Fits, PlaceAfter, GivenUp;
    if !Stuck(p) {
      var plan := PlanOf(ActionAt(p), t);
      var n := if t.steps < |plan| then t.steps else |plan|;
      if GivesUp(p, t) {
        assert plan == GiveUp(t.drops);
        GiveUpPerforms(p.k, t.drops, n, others, id);
      } else {
        PlansFit(p, t);
        PerformFits(p, plan, n, others, id);
      }
    }
  }

  /** Every history of runs, failed, crashed or given up, leaves the world at a place of the protocol: no
      write of the journal is forbidden. */
  lemma {:induction false} HistoryStaysOnPlaces(p: Place, attempts: seq<Attempt>, others: map<string, Content>, id: Identity)
    requires Real(p) && HexToken(id.token) && Outside(others, id)
    ensures History(At(p, others, id), attempts, id) == Some(At(EndOfAll(p, attempts), others, id))
    decreases |attempts|
  {
    hide At, Outside, HexToken, Tried, EndOf;
    if attempts != [] {
      AttemptEnds(p, attempts[0], others, id);
      HistoryStaysOnPlaces(EndOf(p, attempts[0]), attempts[1..], others, id);
    }
  }

  /** A give-up by halves: the journal cleared though the import is still there, or a prepared import dropped
      and its journal kept. */
  predicate ByHalves(p: Place, t: Attempt) {
    var dropped, cleared := t.drops && t.steps >= 1, t.steps >= 2;
    GivesUp(p, t) && if cleared then !dropped && p.k >= 2 else dropped && p.k >= 4
  }

  predicate SomeByHalves(p: Place, attempts: seq<Attempt>)
    requires Real(p)
    decreases |attempts|
  {
    attempts != [] && (ByHalves(p, attempts[0]) || SomeByHalves(EndOf(p, attempts[0]), attempts[1..]))
  }

  lemma {:induction false} FittingPlanFrees(p: Place, plan: seq<Step>, n: nat)
    requires Real(p) && !Stuck(p) && n <= |plan|
    ensures !Stuck(PlaceAfter(p, plan, n))
    decreases n
  {
    hide ForwardPlan, BackwardPlan;
    if n > 0 && Fits(p, plan) && plan != [] { FittingPlanFrees(NextPlace(p, plan), plan[1..], n - 1); }
  }

  /** Inspection refuses after exactly the histories in which an import was given up by halves. */
  lemma {:induction false} StuckExactly(p: Place, attempts: seq<Attempt>)
    requires Real(p)
    ensures Stuck(EndOfAll(p, attempts)) <==> Stuck(p) || SomeByHalves(p, attempts)
    decreases |attempts|
  {
    if attempts != [] {
      var t := attempts[0];
      StuckExactly(EndOf(p, t), attempts[1..]);
      if !Stuck(p) && !GivesUp(p, t) {
        var plan := PlanOf(ActionAt(p), t);
        FittingPlanFrees(p, plan, if t.steps < |plan| then t.steps else |plan|);
      }
      hide PlaceAfter, PlanOf, ActionAt;
      assert Stuck(EndOf(p, t)) <==> Stuck(p) || ByHalves(p, t);
    }
  }

  lemma WorldAt(p: Place, others: map<string, Content>, id: Identity)
    requires Real(p)
    ensures At(p, others, id).phase == PhaseAt(p) && At(p, others, id).databases == others + DatabasesAt(p, id)
  {
  }

  // ---------------------------------------------------------------- exactness

  /** A run that nothing cuts short. */
  const WHOLE := Attempt(false, true, 10)

  /** It ends the transaction, from any place but the stuck ones. */
  lemma UninterruptedRunFinishes(p: Place, others: map<string, Content>, id: Identity)
    requires Real(p) && !Stuck(p) && HexToken(id.token) && Outside(others, id)
    ensures var end := Tried(At(p, others, id), WHOLE, id);
      end == Some(At(if p.Forward? then Forward(9) else Backward(4), others, id))
  {
    hide At, Outside, HexToken, Tried, EndOf;
    AttemptEnds(p, WHOLE, others, id);
    WholeEnds(p);
  }

  lemma WholeEnds(p: Place)
    requires Real(p) && !Stuck(p)
    ensures EndOf(p, WHOLE) == if p.Forward? then Forward(9) else Backward(4)
  {
    FinalPlace(p);
    hide PlaceAfter, MainPlan, ActionAt;
  }

  lemma ForwardNext(k: nat)
    requires k < 9
    ensures Fits(Forward(k), ForwardPlan()[k..]) && ForwardPlan()[k..] != [] && ForwardPlan()[k..][1..] == ForwardPlan()[k + 1..]
    ensures NextPlace(Forward(k), ForwardPlan()[k..]) == Forward(k + 1)
  {
    PlanTails(k);
    assert forall i | 0 <= i < 9 :: ForwardPlan()[i] != DropImport && ForwardPlan()[i] != Mark(RollbackStarted);
  }

  lemma PlaceAfterStep(p: Place, plan: seq<Step>, n: nat)
    requires Fits(p, plan) && n <= |plan|
    ensures n == 0 ==> PlaceAfter(p, plan, n) == p
    ensures n > 0 ==> plan != [] && PlaceAfter(p, plan, n) == PlaceAfter(NextPlace(p, plan), plan[1..], n - 1)
  {
    hide Fits, NextPlace;
  }

  lemma {:induction false} ForwardPlaces(k: nat, n: nat)
    requires k + n <= 9
    ensures |ForwardPlan()[k..]| == 9 - k && PlaceAfter(Forward(k), ForwardPlan()[k..], n) == Forward(k + n)
    decreases n
  {
    assert |ForwardPlan()| == 9;
    hide ForwardPlan, BackwardPlan, PlaceAfter, NextPlace;
    var plan := ForwardPlan()[k..];
    assert Fits(Forward(k), plan) && |plan| == 9 - k;
    hide Fits;
    PlaceAfterStep(Forward(k), plan, n);
    if n > 0 {
      ForwardNext(k);
      ForwardPlaces(k + 1, n - 1);
    }
  }

  lemma BackwardNext(b: nat)
    requires 2 <= b < 4
    ensures Fits(Backward(b), BackwardPlan()[b..]) && BackwardPlan()[b..] != [] && BackwardPlan()[b..][1..] == BackwardPlan()[b + 1..]
    ensures NextPlace(Backward(b), BackwardPlan()[b..]) == Backward(b + 1)
  {
    assert BackwardPlan()[2] == Unswap && BackwardPlan()[3] == Mark(RolledBack);
    assert BackwardPlan()[b..][0] == BackwardPlan()[b];
  }

  lemma {:induction false} BackwardPlaces(b: nat, n: nat)
    requires 2 <= b && b + n <= 4
    ensures |BackwardPlan()[b..]| == 4 - b && PlaceAfter(Backward(b), BackwardPlan()[b..], n) == Backward(b + n)
    decreases n
  {
    if n > 0 {
      BackwardNext(b);
      hide Fits, NextPlace;
      BackwardPlaces(b + 1, n - 1);
    }
  }

  /** Restarting an import goes back to the place before it. */
  lemma RestartPlaces(k: nat)
    requires k == 2 || k == 3
    ensures var plan := [DropImport] + ForwardPlan()[1..]; |plan| == 9 && PlaceAfter(Forward(k), plan, 9) == Forward(9)
  {
    var plan := [DropImport] + ForwardPlan()[1..];
    assert Fits(Forward(k), plan) && plan[1..] == ForwardPlan()[1..] && NextPlace(Forward(k), plan) == Forward(1);
    hide Fits, NextPlace;
    ForwardPlaces(1, 8);
  }

  lemma RollbackPlaces(n: nat)
    requires 1 <= n <= 3
    ensures |BackwardPlan()[1..]| == 3 && PlaceAfter(Forward(7), BackwardPlan()[1..], n) == Backward(n + 1)
  {
    var plan := BackwardPlan()[1..];
    assert Fits(Forward(7), plan) && plan[1..] == BackwardPlan()[2..] && NextPlace(Forward(7), plan) == Backward(2);
    hide Fits, NextPlace;
    BackwardPlaces(2, n - 1);
  }

  lemma FinalPlace(p: Place)
    requires Real(p) && !Stuck(p)
    ensures var plan := MainPlan(ActionAt(p)); |plan| <= 9 && PlaceAfter(p, plan, |plan|) == if p.Forward? then Forward(9) else Backward(4)
  {
    hide PlaceAfter;
    match p
    case Forward(k) =>
      ForwardPlaces(k, 9 - k);
      if k == 2 || k == 3 { RestartPlaces(k); }
      assert ForwardPlan()[9..] == [] && ForwardPlan()[0..] == ForwardPlan();
    case Backward(b) =>
      BackwardPlaces(b, 4 - b);
      assert BackwardPlan()[4..] == [];
  }

  /** After any history, one uninterrupted run completes the restore or its rollback, if and only if no
      import was given up by halves; then inspection refuses for good. */
  lemma RestoreConverges(attempts: seq<Attempt>, others: map<string, Content>, id: Identity)
    requires HexToken(id.token) && Outside(others, id)
    ensures var after := History(At(Forward(0), others, id), attempts, id);
      && after.Some?
      && var end := Tried(after.value, WHOLE, id);
         && (end == Some(At(Forward(9), others, id)) || end == Some(At(Backward(4), others, id))
             <==> !SomeByHalves(Forward(0), attempts))
         && (SomeByHalves(Forward(0), attempts) ==>
               && ReconcileAction(after.value.phase, after.value.databases.Keys, id) == None
               && forall t :: Tried(after.value, t, id) == after)
  {
    var q := EndOfAll(Forward(0), attempts);
    HistoryStaysOnPlaces(Forward(0), attempts, others, id);
    StuckExactly(Forward(0), attempts);
    PlaceIsRecognised(q, others, id);
    WorldAt(q, others, id);
    if Stuck(q) {
      WorldAt(Forward(9), others, id);
      WorldAt(Backward(4), others, id);
      hide At, History, SomeByHalves, EndOfAll;
    } else {
      UninterruptedRunFinishes(q, others, id);
      hide At, Tried, History, SomeByHalves, EndOfAll;
    }
  }

  /** The pre-import data is in exactly one of main and previous; what is selected is complete; and
      unrelated databases are untouched. */
  predicate HeldOnce(w: World, others: map<string, Content>, id: Identity) {
    var d := w.databases;
    && id.Main() in d && d[id.Main()] in {Original, Imported}
    && (d[id.Main()] == Original <==> !(id.Previous() in d && d[id.Previous()] == Original))
    && (forall name | name in id.Relevant() && name in d && d[name] == Original :: name == id.Main() || name == id.Previous())
    && (w.phase in {Some(Selected), Some(ReadinessVerified), Some(Complete)} ==> d[id.Main()] == Imported)
    && (w.phase == Some(RolledBack) ==> d[id.Main()] == Original)
    && forall name | name in others :: name in d && d[name] == others[name]
  }

  lemma HeldAt(p: Place, others: map<string, Content>, id: Identity)
    requires Real(p) && HexToken(id.token) && Outside(others, id)
    ensures HeldOnce(At(p, others, id), others, id)
  {
    NamesAreDistinct(id);
    hide HexToken;
    match p
    case Forward(k) =>
    case Backward(b) =>
    case Dropped(_) =>
    case Left(_) =>
  }

  /** After any history, so it is. */
  lemma OriginalIsHeldOnce(attempts: seq<Attempt>, others: map<string, Content>, id: Identity)
    requires HexToken(id.token) && Outside(others, id)
    ensures var w := History(At(Forward(0), others, id), attempts, id);
      w.Some? && HeldOnce(w.value, others, id)
  {
    HistoryStaysOnPlaces(Forward(0), attempts, others, id);
    HeldAt(EndOfAll(Forward(0), attempts), others, id);
    hide *;
  }

  lemma ForwardReached(k: nat)
    requires k <= 9
    ensures EndOf(Forward(0), Attempt(false, true, k)) == Forward(k)
  {
    assert ForwardPlan()[0..] == ForwardPlan();
    ForwardPlaces(0, k);
    hide PlaceAfter;
  }

  lemma RollbackReached(n: nat)
    requires 1 <= n <= 3
    ensures EndOf(Forward(7), Attempt(true, true, n)) == Backward(n + 1)
  {
    RollbackPlaces(n);
    hide PlaceAfter;
  }

  /** The runs that lead to a place: at most two. */
  function RunsTo(p: Place): seq<Attempt>
    requires Real(p)
  {
    match p
    case Forward(k) => [Attempt(false, true, k)]
    case Backward(b) => [Attempt(false, true, 7), Attempt(true, true, b - 1)]
    case Dropped(k) => [Attempt(false, true, k), Attempt(true, true, 1)]
    case Left(content) => [Attempt(false, true, if content == Partial then 2 else 3), Attempt(true, false, 2)]
  }

  lemma StuckReached(p: Place)
    requires Real(p) && Stuck(p)
    ensures EndOf(Forward(RunsTo(p)[0].steps), RunsTo(p)[1]) == p
  {
  }

  lemma OneRun(p: Place, a: Attempt)
    requires Real(p)
    ensures EndOfAll(p, [a]) == EndOf(p, a)
  {
    assert [a][1..] == [];
    hide EndOf;
  }

  lemma TwoRuns(p: Place, a: Attempt, b: Attempt)
    requires Real(p)
    ensures EndOfAll(p, [a, b]) == EndOf(EndOf(p, a), b)
  {
    assert [a, b][1..] == [b];
    hide EndOf;
    OneRun(EndOf(p, a), b);
  }

  lemma RunsEnd(p: Place)
    requires Real(p)
    ensures EndOfAll(Forward(0), RunsTo(p)) == p
  {
    hide EndOf, EndOfAll;
    match p
    case Forward(k) =>
      ForwardReached(k);
      OneRun(Forward(0), Attempt(false, true, k));
    case Backward(b) =>
      ForwardReached(7);
      RollbackReached(b - 1);
      TwoRuns(Forward(0), Attempt(false, true, 7), Attempt(true, true, b - 1));
    case _ =>
      ForwardReached(RunsTo(p)[0].steps);
      StuckReached(p);
      TwoRuns(Forward(0), RunsTo(p)[0], RunsTo(p)[1]);
  }

  /** The places are reached. */
  lemma PlaceIsReached(p: Place, others: map<string, Content>, id: Identity)
    requires Real(p) && HexToken(id.token) && Outside(others, id)
    ensures History(At(Forward(0), others, id), RunsTo(p), id) == Some(At(p, others, id))
  {
    hide *;
    assert Real(Forward(0)) by { RealStart(); }
    RunsEnd(p);
    HistoryStaysOnPlaces(Forward(0), RunsTo(p), others, id);
  }

  lemma RealStart()
    ensures Real(Forward(0))
  {
  }

  /** What a give-up by halves leaves to be seen. */
  predicate HalfPair(phase: Option<Phase>, relevant: set<string>, id: Identity) {
    || (phase in {Some(Prepared), Some(SwapStarted)} && relevant == {id.Main()})
    || (phase == None && relevant == {id.Main(), id.Import()})
  }

  /** Reconciliation accepts precisely the phases and topologies that the protocol reaches, but for those a
      give-up by halves leaves: they are reached and refused. */
  lemma AcceptedExactlyReachable(phase: Option<Phase>, relevant: set<string>, id: Identity)
    requires HexToken(id.token) && relevant <= id.Relevant()
    ensures ReconcileAction(phase, relevant, id).Some? || HalfPair(phase, relevant, id) <==>
      exists attempts :: var w := History(At(Forward(0), map[], id), attempts, id);
        w.Some? && w.value.phase == phase && w.value.databases.Keys == relevant
    ensures HalfPair(phase, relevant, id) ==> ReconcileAction(phase, relevant, id) == None
  {
    if HalfPair(phase, relevant, id) {
      var p := PlaceOf(phase, relevant, id);
      WorldAlone(p, id);
    }
    if ReconcileAction(phase, relevant, id).Some? || HalfPair(phase, relevant, id) {
      var p := PlaceOf(phase, relevant, id);
      PlaceIsReached(p, map[], id);
      WorldAlone(p, id);
      hide RunsTo, History, DatabasesAt, PhaseAt, At, ReconcileAction, HalfPair;
    }
    if attempts :| var w := History(At(Forward(0), map[], id), attempts, id);
        w.Some? && w.value.phase == phase && w.value.databases.Keys == relevant {
      var q := EndOfAll(Forward(0), attempts);
      HistoryStaysOnPlaces(Forward(0), attempts, map[], id);
      WorldAlone(q, id);
      hide History, EndOfAll, DatabasesAt, PhaseAt, At, ReconcileAction, HalfPair;
    }
  }

  lemma WorldAlone(p: Place, id: Identity)
    requires Real(p) && HexToken(id.token)
    ensures var w := At(p, map[], id);
      && w.phase == PhaseAt(p) && w.databases.Keys == DatabasesAt(p, id).Keys
      && (HalfPair(w.phase, w.databases.Keys, id) <==> Stuck(p))
      && (ReconcileAction(w.phase, w.databases.Keys, id).Some? <==> !Stuck(p))
  {
    PlaceIsRecognised(p, map[], id);
    WorldAt(p, map[], id);
    assert map[] + DatabasesAt(p, id) == DatabasesAt(p, id);
    HalfPairIsStuck(p, id);
    hide HalfPair, DatabasesAt, PhaseAt, At, ReconcileAction;
  }

  lemma HalfPairIsStuck(p: Place, id: Identity)
    requires Real(p) && HexToken(id.token)
    ensures HalfPair(PhaseAt(p), DatabasesAt(p, id).Keys, id) <==> Stuck(p)
  {
    NamesAreDistinct(id);
    var keys := DatabasesAt(p, id).Keys;
    hide HexToken;
    match p
    case Forward(k) =>
      if 4 <= k <= 5 { assert id.Import() in keys; }
      if 6 <= k { assert id.Previous() in keys; }
    case Backward(b) =>
    case Dropped(_) => assert keys == {id.Main()};
    case Left(_) => assert keys == {id.Main(), id.Import()};
  }

  lemma PlaceOf(phase: Option<Phase>, relevant: set<string>, id: Identity) returns (p: Place)
    requires HexToken(id.token) && relevant <= id.Relevant()
    requires ReconcileAction(phase, relevant, id).Some? || HalfPair(phase, relevant, id)
    ensures Real(p) && PhaseAt(p) == phase && DatabasesAt(p, id).Keys == relevant
  {
    NamesAreDistinct(id);
    assert relevant * id.Relevant() == relevant;
    var mainOnly, importing := {id.Main()}, {id.Main(), id.Import()};
    hide HexToken, DatabaseName;
    p := match phase
      case None => if relevant == mainOnly then Forward(0) else Left(Partial)
      case Some(ImportStarted) => if relevant == mainOnly then Forward(1) else Forward(2)
      case Some(Prepared) => if relevant == importing then Forward(4) else Dropped(4)
      case Some(SwapStarted) => if relevant == importing then Forward(5) else if relevant == mainOnly then Dropped(5) else Forward(6)
      case Some(Selected) => Forward(7)
      case Some(ReadinessVerified) => Forward(8)
      case Some(Complete) => Forward(9)
      case Some(RollbackStarted) => if relevant == {id.Main(), id.Previous()} then Backward(2) else Backward(3)
      case Some(RolledBack) => Backward(4);
  }

  /** Databases that are not the restore's decide nothing, unless their names are malformed: then inspection
      refuses. */
  lemma ForeignNames(phase: Option<Phase>, observed: set<string>, id: Identity)
    requires HexToken(id.token)
    ensures ReconcileAction(phase, observed, id) ==
      if forall name | name in observed ::
           2 <= |name| <= 63 && 'a' <= name[0] <= 'z'
           && forall i | 1 <= i < |name| :: 'a' <= name[i] <= 'z' || '0' <= name[i] <= '9' || name[i] == '_'
      then ReconcileAction(phase, observed * id.Relevant(), id) else None
  {
    NamesAreValid(id);
    assert forall name | name in observed :: DatabaseName(name) <==>
      2 <= |name| <= 63 && 'a' <= name[0] <= 'z'
      && forall i | 1 <= i < |name| :: 'a' <= name[i] <= 'z' || '0' <= name[i] <= '9' || name[i] == '_';
    var relevant := observed * id.Relevant();
    assert relevant * id.Relevant() == relevant;
    hide DatabaseName, HexToken;
  }

  // ---------------------------------------------------------------- the transitions of the journal

  /** After these runs, one step more of the last run moves the journal from one phase to another. */
  ghost predicate Takes(attempts: seq<Attempt>, t: Attempt, current: Option<Phase>, next: Phase, id: Identity) {
    var w := History(At(Forward(0), map[], id), attempts, id);
    && w.Some?
    && var a, b := Tried(w.value, t, id), Tried(w.value, t.(steps := t.steps + 1), id);
       a.Some? && b.Some? && a.value.phase == current != Some(next) && b.value.phase == Some(next)
  }

  lemma {:induction false} PerformStep(w: World, plan: seq<Step>, n: nat, id: Identity)
    requires n < |plan| && Perform(w, plan[..n + 1], id).Some?
    ensures Perform(w, plan[..n], id).Some?
    ensures Perform(w, plan[..n + 1], id) == Do(Perform(w, plan[..n], id).value, plan[n], id)
    decreases n
  {
    hide Do;
    assert plan[..n + 1][1..] == plan[1..][..n];
    if n == 0 {
      assert plan[1..][..0] == [];
    } else {
      assert plan[..n][1..] == plan[1..][..n - 1];
      PerformStep(Do(w, plan[0], id).value, plan[1..], n - 1, id);
    }
  }

  lemma MarkIsAllowed(w: World, step: Step, id: Identity)
    requires Do(w, step, id).Some?
    ensures var after := Do(w, step, id).value.phase; after == w.phase || after == None || after.value in Allowed(w.phase)
  {
    hide Allowed;
  }

  lemma TakenIsAllowed(w: World, t: Attempt, id: Identity, next: Phase)
    requires var b := Tried(w, t.(steps := t.steps + 1), id); b.Some? && b.value.phase == Some(next)
    requires var a := Tried(w, t, id); a.Some? && a.value.phase != Some(next)
    ensures next in Allowed(Tried(w, t, id).value.phase)
  {
    var action := ReconcileAction(w.phase, w.databases.Keys, id);
    if action.Some? {
      var plan := PlanOf(action.value, t);
      assert plan == PlanOf(action.value, t.(steps := t.steps + 1));
      hide ReconcileAction, PlanOf, Perform, Do, Allowed;
      if t.steps < |plan| {
        PerformStep(w, plan, t.steps, id);
        MarkIsAllowed(Perform(w, plan[..t.steps], id).value, plan[t.steps], id);
      }
    }
  }

  lemma PlacesTake(attempts: seq<Attempt>, t: Attempt, p: Place, next: Phase, id: Identity)
    requires HexToken(id.token) && Real(p) && EndOfAll(Forward(0), attempts) == p
    requires PhaseAt(EndOf(p, t)) != Some(next) && PhaseAt(EndOf(p, t.(steps := t.steps + 1))) == Some(next)
    ensures Takes(attempts, t, PhaseAt(EndOf(p, t)), next, id)
  {
    PhaseShown(EndOf(p, t), id);
    PhaseShown(EndOf(p, t.(steps := t.steps + 1)), id);
    RealStart();
    hide *;
    HistoryStaysOnPlaces(Forward(0), attempts, map[], id);
    AttemptEnds(p, t, map[], id);
    AttemptEnds(p, t.(steps := t.steps + 1), map[], id);
    WorldsTake(attempts, t, At(p, map[], id), At(EndOf(p, t), map[], id), At(EndOf(p, t.(steps := t.steps + 1)), map[], id), next, id);
  }

  lemma WorldsTake(attempts: seq<Attempt>, t: Attempt, w: World, a: World, b: World, next: Phase, id: Identity)
    requires Real(Forward(0)) && History(At(Forward(0), map[], id), attempts, id) == Some(w)
    requires Tried(w, t, id) == Some(a) && Tried(w, t.(steps := t.steps + 1), id) == Some(b)
    requires a.phase != Some(next) == b.phase
    ensures Takes(attempts, t, a.phase, next, id)
  {
    hide History, Tried, At;
  }

  lemma PhaseShown(p: Place, id: Identity)
    requires Real(p)
    ensures At(p, map[], id).phase == PhaseAt(p) && Outside(map[], id)
  {
  }

  /** The run in which a phase is entered, and the step before it. */
  function Entering(next: Phase): (seq<Attempt>, Attempt) {
    match next
    case ImportStarted => ([], Attempt(false, true, 0))
    case Prepared => ([], Attempt(false, true, 3))
    case SwapStarted => ([], Attempt(false, true, 4))
    case Selected => ([], Attempt(false, true, 6))
    case ReadinessVerified => ([], Attempt(false, true, 7))
    case Complete => ([], Attempt(false, true, 8))
    case RollbackStarted => ([Attempt(false, true, 7)], Attempt(true, true, 0))
    case RolledBack => ([Attempt(false, true, 7)], Attempt(true, true, 2))
  }

  /** Where those runs stand before and after the step. */
  function Before(next: Phase): (p: Place)
    ensures Real(p)
  {
    match Entering(next) case (attempts, t) => if attempts == [] then Forward(t.steps) else if t.steps == 0 then Forward(7) else Backward(t.steps + 1)
  }

  function After(next: Phase): (p: Place)
    ensures Real(p)
  {
    match Entering(next) case (attempts, t) => if attempts == [] then Forward(t.steps + 1) else Backward(t.steps + 2)
  }

  lemma EntersPhase(current: Option<Phase>, next: Phase)
    requires next in Allowed(current)
    ensures PhaseAt(Before(next)) == current != Some(next) && PhaseAt(After(next)) == Some(next)
  {
  }

  lemma RunsEnter(next: Phase)
    ensures var (attempts, t) := Entering(next); var p := if attempts == [] then Forward(0) else Forward(7);
      && EndOfAll(Forward(0), attempts) == p && EndOf(p, t) == Before(next) && EndOf(p, t.(steps := t.steps + 1)) == After(next)
  {
    hide EndOf, EndOfAll;
    var (attempts, t) := Entering(next);
    if attempts == [] {
      ForwardReached(t.steps);
      ForwardReached(t.steps + 1);
      NoRuns();
    } else {
      ForwardReached(7);
      OneRun(Forward(0), attempts[0]);
      RollbackReached(t.steps + 1);
      if t.steps == 0 { NotBegun(); } else { RollbackReached(t.steps); }
    }
  }

  lemma NoRuns()
    ensures EndOfAll(Forward(0), []) == Forward(0)
  {
  }

  lemma AllowedIsTaken(current: Option<Phase>, next: Phase, id: Identity)
    requires HexToken(id.token) && next in Allowed(current)
    ensures Takes(Entering(next).0, Entering(next).1, current, next, id)
  {
    EntersPhase(current, next);
    RunsEnter(next);
    hide EndOf, EndOfAll, Takes, Entering, Before, After, Allowed, PhaseAt, HexToken;
    var (attempts, t) := Entering(next);
    PlacesTake(attempts, t, if attempts == [] then Forward(0) else Forward(7), next, id);
  }

  lemma NotBegun()
    ensures EndOf(Forward(7), Attempt(true, true, 0)) == Forward(7)
  {
  }

  /** The journal allows exactly the transitions that runs of the playbook make: none of theirs is forbidden,
      and no other is allowed. */
  lemma AllowedExactlyTaken(current: Option<Phase>, next: Phase, id: Identity)
    requires HexToken(id.token)
    ensures next in Allowed(current) <==> exists attempts, t :: Takes(attempts, t, current, next, id)
  {
    if next in Allowed(current) { AllowedIsTaken(current, next, id); }
    if attempts, t :| Takes(attempts, t, current, next, id) {
      TakenIsAllowed(History(At(Forward(0), map[], id), attempts, id).value, t, id, next);
    }
    hide Allowed, HexToken;
  }

  // ---------------------------------------------------------------- the rescue that gives an import up

  /** Giving up an unselected import drops it, whether or not that takes effect, and then clears the journal.
      The next inspection accepts what is there unless exactly one of the two happened where both are needed:
      the clearing beside an import that is still there, or the dropping of a prepared one. It is as if nothing
      had happened only if the journal is cleared and no import is left. */
  lemma GiveUpExactly(k: nat, drops: bool, n: nat, others: map<string, Content>, id: Identity)
    requires 1 <= k <= 5 && n <= 2 && HexToken(id.token) && Outside(others, id)
    ensures var end := Perform(At(Forward(k), others, id), GiveUp(drops)[..n], id);
      var dropped, cleared := drops && n >= 1, n >= 2;
      && end.Some?
      && (ReconcileAction(end.value.phase, end.value.databases.Keys, id).Some?
          <==> if cleared then dropped || k == 1 else !dropped || k <= 3)
      && (end == Some(At(Forward(0), others, id)) <==> cleared && (dropped || k == 1))
  {
    var q := GivenUp(k, drops && n >= 1, n >= 2);
    GiveUpPerforms(k, drops, n, others, id);
    PlaceIsRecognised(q, others, id);
    WorldAt(q, others, id);
    WorldAt(Forward(0), others, id);
    if q != Forward(0) && q.Left? {
      NamesAreDistinct(id);
      assert id.Import() in DatabasesAt(q, id) && id.Import() !in others && id.Import() !in DatabasesAt(Forward(0), id);
    }
    hide At, Perform, ReconcileAction, HexToken, Outside;
  }

  /** A failed drop: a whole import in place, the give-up completed, and the next run refused. */
  lemma FailedDropRefuses(id: Identity)
    requires HexToken(id.token)
    ensures var w := History(At(Forward(0), map[], id), [Attempt(false, true, 3), Attempt(true, false, 2)], id);
      && w == Some(World(None, map[id.Main() := Original, id.Import() := Imported]))
      && ReconcileAction(None, w.value.databases.Keys, id) == None
  {
    PlaceIsReached(Left(Imported), map[], id);
    PlaceIsRecognised(Left(Imported), map[], id);
    WorldAt(Left(Imported), map[], id);
    var d := DatabasesAt(Left(Imported), id);
    assert map[] + d == d;
    hide ReconcileAction, History, HexToken;
  }

  // ---------------------------------------------------------------- the journal file

  class JournalFile {
    var phase: Option<Phase>

    constructor ()
      ensures phase == None
    {
      phase := None;
    }

    /** The atomic replacement leaves the old journal or the new one. */
    method Transition(next: Phase, databases: map<string, Content>, id: Identity) returns (done: bool, crashed: bool)
      modifies this
      ensures done || crashed <==> Do(World(old(phase), databases), Mark(next), id).Some?
      ensures done ==> !crashed && Do(World(old(phase), databases), Mark(next), id) == Some(World(phase, databases))
      ensures phase == old(phase) || Do(World(old(phase), databases), Mark(next), id) == Some(World(phase, databases))
    {
      if next !in Allowed(phase) { return false, false; }
      var renamed: bool := *;
      crashed := *;
      if renamed || !crashed { phase := Some(next); }
      done := !crashed;
    }

    /** Removal is limited to the phases before selection, and to the phase the caller saw. */
    method Clear(expected: Phase, databases: map<string, Content>, id: Identity) returns (done: bool, crashed: bool)
      modifies this
      ensures done || crashed <==> Some(expected) == old(phase) && expected in {ImportStarted, Prepared, SwapStarted}
      ensures done || crashed ==> Do(World(old(phase), databases), ClearJournal, id).Some?
      ensures !done && !crashed ==> phase == old(phase)
      ensures done ==> phase == None
      ensures phase == old(phase) || phase == None
      ensures expected in {Selected, ReadinessVerified, Complete, RollbackStarted, RolledBack} ==> !done && phase == old(phase)
    {
      if expected !in {ImportStarted, Prepared, SwapStarted} || phase != Some(expected) { return false, false; }
      var unlinked: bool := *;
      crashed := *;
      if unlinked || !crashed { phase := None; }
      done := !crashed;
    }
  }
}
