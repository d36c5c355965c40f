/**
 The journal that binds one forced certificate rotation to one operator request
 (deploy/scripts/forced_fixture_leaf_rotation_state.py).
 */
module RotationJournal {
  import opened Options

  // ---------------------------------------------------------------- snapshots and states

  datatype Certificate = Certificate(pemSha256: nat, serial: nat, fingerprint: nat)

  /** Who asked for a generation: a forced request, or routine operation. */
  datatype Marker = Operational | Forced(requestId: string)

  /** What the pointer to the current generation shows; the leaves are the four fixture identities. */
  datatype Snapshot = Snapshot(ca: Certificate, generation: nat, leaves: seq<Certificate>, request: Option<Marker>)

  const LEAVES: nat := 4

  predicate ValidSnapshot(s: Snapshot) {
    |s.leaves| == LEAVES
  }

  predicate ValidTransition(before: Snapshot, after: Snapshot) {
    && ValidSnapshot(before) && ValidSnapshot(after)
    && before.generation != after.generation && before.ca == after.ca
    && forall i | 0 <= i < LEAVES ::
         && before.leaves[i].pemSha256 != after.leaves[i].pemSha256
         && before.leaves[i].serial != after.leaves[i].serial
         && before.leaves[i].fingerprint != after.leaves[i].fingerprint
  }

  /** PREPARED until the completion data is there. */
  datatype State = Prepared(before: Snapshot) | Selected(before: Snapshot, after: Snapshot, atMs: int)

  predicate ValidState(s: State, id: string) {
    && ValidSnapshot(s.before)
    && (s.Selected? ==> ValidTransition(s.before, s.after) && s.after.request == Some(Forced(id)) && s.atMs >= 1)
  }

  // ---------------------------------------------------------------- the world

  /** The state files, whether a temporary file is lying among them, and every generation the pointer has
      shown, the current one last. `preparedAt` remembers how many there were when a request was prepared. */
  datatype World = World(states: map<string, State>, stray: bool, pointers: seq<Snapshot>, preparedAt: map<string, nat>)

  function Current(w: World): Snapshot
    requires w.pointers != []
  {
    w.pointers[|w.pointers| - 1]
  }

  predicate OtherPrepared(states: map<string, State>, id: string) {
    exists other | other in states && other != id :: states[other].Prepared?
  }

  predicate OthersValid(states: map<string, State>, id: string) {
    forall other | other in states && other != id :: ValidState(states[other], other)
  }

  datatype Result = Rejected | RotateRequired | RotationSelected | AlreadySelected

  /** What one call decides: its answer and the state it would write. */
  datatype Decision = Decision(result: Result, write: Option<State>)

  function Decide(states: map<string, State>, stray: bool, current: Snapshot, finalize: bool, id: string, nowMs: int): Decision {
    if !ValidSnapshot(current) || stray || !OthersValid(states, id) || OtherPrepared(states, id) then Decision(Rejected, None)
    else if id !in states then
      (if finalize then Decision(Rejected, None) else Decision(RotateRequired, Some(Prepared(current))))
    else
      var state := states[id];
      if !ValidState(state, id) then Decision(Rejected, None)
      else if state.Selected? then Decision(if current == state.after then AlreadySelected else Rejected, None)
      else if current == state.before then Decision(if finalize then Rejected else RotateRequired, None)
      else if ValidTransition(state.before, current) && current.request == Some(Forced(id)) && nowMs >= 1 then
        Decision(RotationSelected, Some(Selected(state.before, current, nowMs)))
      else Decision(Rejected, None)
  }

  /** How a write may end: done, or a crash before the temporary file, with it left behind, or after the
      replacement. */
  datatype Ending = Finished | BeforeTemporary | TemporaryLeft | AfterReplace

  datatype Event =
    | Move(to: Snapshot)
    | Call(finalize: bool, id: string, nowMs: int, ending: Ending)

  function DecisionOf(w: World, e: Event): Decision
    requires w.pointers != [] && e.Call?
  {
    Decide(w.states, w.stray, Current(w), e.finalize, e.id, e.nowMs)
  }

  function Next(w: World, e: Event): World
    requires w.pointers != []
  {
    match e
    case Move(s) => w.(pointers := w.pointers + [s])
    case Call(finalize, id, nowMs, ending) =>
      var d := DecisionOf(w, e);
      if d.write == None || ending == BeforeTemporary then w
      else if ending == TemporaryLeft then w.(stray := true)
      else
        w.(states := w.states[id := d.write.value],
           preparedAt := if d.write.value.Prepared? then w.preparedAt[id := |w.pointers| - 1] else w.preparedAt)
  }

  function Run(w: World, events: seq<Event>): (r: World)
    requires w.pointers != []
    ensures r.pointers != []
    decreases |events|
  {
    if events == [] then w else Run(Next(w, events[0]), events[1..])
  }

  // ---------------------------------------------------------------- what every run keeps

  predicate OnePrepared(states: map<string, State>) {
    forall a, b | a in states && b in states && states[a].Prepared? && states[b].Prepared? :: a == b
  }

  /** A state's snapshots were the pointer's, before then after. */
  predicate FromPointer(w: World, id: string)
    requires id in w.states
  {
    && id in w.preparedAt && w.preparedAt[id] < |w.pointers| && w.pointers[w.preparedAt[id]] == w.states[id].before
    && (w.states[id].Selected? ==> exists k | w.preparedAt[id] < k < |w.pointers| :: w.pointers[k] == w.states[id].after)
  }

  predicate Sound(w: World) {
    && w.pointers != [] && OnePrepared(w.states)
    && forall id | id in w.states :: ValidState(w.states[id], id) && FromPointer(w, id)
  }

  /** `before` is written once and a selection is final. */
  predicate Keeps(a: World, b: World) {
    && (forall id | id in a.states :: id in b.states && b.states[id].before == a.states[id].before)
    && (forall id | id in a.states && a.states[id].Selected? :: b.states[id] == a.states[id])
    && a.pointers <= b.pointers
  }

  lemma MoveKeeps(w: World, s: Snapshot)
    requires Sound(w)
    ensures Sound(Next(w, Move(s))) && Keeps(w, Next(w, Move(s)))
  {
    var w' := Next(w, Move(s));
    forall id | id in w'.states ensures FromPointer(w', id) {
      assert FromPointer(w, id);
      if w.states[id].Selected? {
        var k :| w.preparedAt[id] < k < |w.pointers| && w.pointers[k] == w.states[id].after;
        assert w'.pointers[k] == w.states[id].after;
      }
    }
  }

  lemma CallKeeps(w: World, e: Event)
    requires Sound(w) && e.Call?
    ensures Sound(Next(w, e)) && Keeps(w, Next(w, e))
  {
    var w', d := Next(w, e), DecisionOf(w, e);
    if w'.states != w.states {
      var new' := d.write.value;
      assert w'.states == w.states[e.id := new'];
      forall id | id in w'.states ensures ValidState(w'.states[id], id) && FromPointer(w', id) {
        if id == e.id {
          if new'.Selected? {
            assert FromPointer(w, id) && w.pointers[|w.pointers| - 1] == new'.after;
            assert w.preparedAt[id] < |w.pointers| - 1;
          }
        } else {
          assert FromPointer(w, id);
        }
      }
    } else {
      forall id | id in w'.states ensures FromPointer(w', id) { assert FromPointer(w, id); }
    }
  }

  lemma StepKeeps(w: World, e: Event)
    requires Sound(w)
    ensures Sound(Next(w, e)) && Keeps(w, Next(w, e))
  {
    match e
    case Move(s) => MoveKeeps(w, s);
    case Call(_, _, _, _) => CallKeeps(w, e);
  }

  lemma {:induction false} KeepsTransitive(a: World, b: World, c: World)
    requires Keeps(a, b) && Keeps(b, c)
    ensures Keeps(a, c)
  {
  }

  /** Over all requests, pointer moves and crashes: at most one request is pending, what was written stays,
      and every selection is a valid transition bound to its own request. */
  lemma {:induction false} RunKeeps(w: World, events: seq<Event>)
    requires Sound(w)
    ensures Sound(Run(w, events)) && Keeps(w, Run(w, events))
    decreases |events|
  {
    hide Sound, Keeps, Next;
    if events == [] {
      assert Keeps(w, w) by { KeepsItself(w); }
    } else {
      assert w.pointers != [] by { SoundHasPointer(w); }
      StepKeeps(w, events[0]);
      var next := Next(w, events[0]);
      assert next.pointers != [] by { SoundHasPointer(next); }
      RunKeeps(next, events[1..]);
      KeepsTransitive(w, next, Run(next, events[1..]));
    }
  }

  lemma KeepsItself(w: World)
    ensures Keeps(w, w)
  {
  }

  lemma SoundHasPointer(w: World)
    requires Sound(w)
    ensures w.pointers != []
  {
  }

  lemma StartIsSound(first: Snapshot)
    ensures Sound(Start(first))
  {
  }

  /** Distinct requests select distinct generations' snapshots. */
  lemma RequestsSelectApart(w: World, a: string, b: string)
    requires Sound(w) && a in w.states && b in w.states && a != b && w.states[a].Selected? && w.states[b].Selected?
    ensures w.states[a].after != w.states[b].after
  {
    assert ValidState(w.states[a], a) && ValidState(w.states[b], b);
  }

  /** No generation is ever current again after another one was. */
  predicate NeverReselected(pointers: seq<Snapshot>) {
    forall i, j, k | 0 <= i < j < k < |pointers| ::
      pointers[i].generation == pointers[k].generation ==> pointers[j].generation == pointers[i].generation
  }

  const NO_STATES: map<string, State> := map[]

  function Start(first: Snapshot): World {
    World(NO_STATES, false, [first], map[])
  }

  /** What any run from an empty journal answers to a request it already knows: to rotate, exactly when the
      request is still pending and the pointer shows what it showed when the request was prepared. */
  lemma SecondRotationExactly(first: Snapshot, events: seq<Event>, e: Event) returns (w: World)
    requires e.Call?
    ensures w == Run(Start(first), events) && Sound(w)
    ensures e.id in w.states ==>
      && e.id in w.preparedAt && w.preparedAt[e.id] < |w.pointers|
      && (DecisionOf(w, e).result == RotateRequired
          <==> !e.finalize && !w.stray && w.states[e.id].Prepared? && Current(w) == w.pointers[w.preparedAt[e.id]])
    ensures e.id !in w.states ==>
      (DecisionOf(w, e).result == RotateRequired
       <==> !e.finalize && !w.stray && ValidSnapshot(Current(w)) && forall id | id in w.states :: w.states[id].Selected?)
  {
    StartIsSound(first);
    RunKeeps(Start(first), events);
    w := Run(Start(first), events);
    if e.id in w.states {
      assert FromPointer(w, e.id);
    }
  }

  /** What any run answers with a selection: exactly when the request is pending and the pointer now shows its own
      forced generation, under the same authority, with every leaf certificate replaced. */
  lemma SelectionExactly(first: Snapshot, events: seq<Event>, e: Event) returns (w: World)
    requires e.Call?
    ensures w == Run(Start(first), events)
    ensures DecisionOf(w, e).result == RotationSelected <==>
      && !w.stray && e.nowMs >= 1 && e.id in w.states && w.states[e.id].Prepared?
      && var before, now := w.states[e.id].before, Current(w);
         && now.request == Some(Forced(e.id)) && now.generation != before.generation && now.ca == before.ca
         && |now.leaves| == |before.leaves| == 4
         && (forall i | 0 <= i < 4 ::
               && now.leaves[i].pemSha256 != before.leaves[i].pemSha256 && now.leaves[i].serial != before.leaves[i].serial
               && now.leaves[i].fingerprint != before.leaves[i].fingerprint)
    ensures DecisionOf(w, e).result == AlreadySelected <==>
      && !w.stray && e.id in w.states && w.states[e.id].Selected? && Current(w) == w.states[e.id].after
      && forall id | id in w.states :: w.states[id].Selected?
  {
    w := SecondRotationExactly(first, events, e);
    assert e.id in w.states ==> ValidState(w.states[e.id], e.id);
    assert forall other | other in w.states && other != e.id && e.id in w.states && w.states[e.id].Prepared? :: !w.states[other].Prepared?;
    hide FromPointer;
  }

  /** What a call leaves behind, by its answer and by how its write ended: a first rotation is written down with
      the snapshot it starts from, a selection with the one it reached and the call's time, and nothing else is. */
  lemma WritesExactly(w: World, e: Event)
    requires w.pointers != [] && e.Call?
    ensures
      var result, lands := DecisionOf(w, e).result, e.ending == Finished || e.ending == AfterReplace;
      var first, second := result == RotateRequired && e.id !in w.states, result == RotationSelected;
      && (second ==> e.id in w.states)
      && Next(w, e).pointers == w.pointers
      && (Next(w, e).stray <==> w.stray || (e.ending == TemporaryLeft && (first || second)))
      && Next(w, e).states ==
           (if lands && first then w.states[e.id := Prepared(Current(w))]
            else if lands && second then w.states[e.id := Selected(w.states[e.id].before, Current(w), e.nowMs)]
            else w.states)
  {
    hide ValidSnapshot, ValidTransition, ValidState, OtherPrepared, OthersValid;
  }

  /** So a pointer that never goes back to a generation it left asks for no second rotation. */
  lemma NoSecondRotation(first: Snapshot, events: seq<Event>, e: Event, moved: nat)
    requires e.Call?
    ensures
      var w := Run(Start(first), events);
      (&& e.id in w.states && e.id in w.preparedAt && w.preparedAt[e.id] < moved < |w.pointers|
       && w.pointers[moved].generation != w.states[e.id].before.generation
       && NeverReselected(w.pointers)) ==> DecisionOf(w, e).result != RotateRequired
  {
    var w := SecondRotationExactly(first, events, e);
    if e.id in w.states && e.id in w.preparedAt && w.preparedAt[e.id] < moved < |w.pointers| {
      assert FromPointer(w, e.id);
      assert w.pointers[w.preparedAt[e.id]] == w.states[e.id].before;
    }
  }

  /** A reselected generation is what that needs: preparing, rotating away and back asks for the rotation
      once more. */
  lemma ReselectionRotatesTwice()
    ensures
      var old', new' := Snapshot(Certificate(0, 0, 0), 1, LeavesOf(1), None), Snapshot(Certificate(0, 0, 0), 2, LeavesOf(2), None);
      var call := Call(false, "request", 1, Finished);
      var w := Run(Start(old'), [call, Move(new'), Move(old')]);
      DecisionOf(w, call).result == RotateRequired
  {
    var old', new' := Snapshot(Certificate(0, 0, 0), 1, LeavesOf(1), None), Snapshot(Certificate(0, 0, 0), 2, LeavesOf(2), None);
    var call := Call(false, "request", 1, Finished);
    var w0 := Start(old');
    var w1 := Next(w0, call);
    assert w1.states == map["request" := Prepared(old')];
    var w2 := Next(w1, Move(new'));
    var w3 := Next(w2, Move(old'));
    RunThree(w0, call, Move(new'), Move(old'));
    assert Current(w3) == old';
  }

  lemma RunThree(w: World, a: Event, b: Event, c: Event)
    requires w.pointers != []
    ensures Next(w, a).pointers != [] && Next(Next(w, a), b).pointers != []
    ensures Run(w, [a, b, c]) == Next(Next(Next(w, a), b), c)
  {
    var w1 := Next(w, a);
    var w2 := Next(w1, b);
    assert [a, b, c][1..] == [b, c] && [b, c][1..] == [c] && [c][1..] == [];
    assert Run(w2, [c]) == Next(w2, c);
    assert Run(w1, [b, c]) == Run(w2, [c]);
  }

  function LeavesOf(n: nat): (leaves: seq<Certificate>)
    ensures |leaves| == LEAVES
  {
    [Certificate(n, n, n), Certificate(n, n, n), Certificate(n, n, n), Certificate(n, n, n)]
  }

  /** A temporary file left by a crash closes the journal: every later call is refused and changes
      nothing, until someone removes the file. */
  lemma {:induction false} StrayClosesTheJournal(w: World, events: seq<Event>)
    requires w.pointers != [] && w.stray
    ensures Run(w, events).states == w.states && Run(w, events).stray
    ensures forall e: Event | e.Call? :: DecisionOf(w, e).result == Rejected
    decreases |events|
  {
    if events != [] {
      StrayClosesTheJournal(Next(w, events[0]), events[1..]);
    }
  }

  /** A call that had something to write and left its temporary file. */
  predicate Interrupted(w: World, e: Event)
    requires w.pointers != []
  {
    e.Call? && DecisionOf(w, e).write.Some? && e.ending == TemporaryLeft
  }

  /** Calling again after a write, finished or not, is refused exactly when a temporary file was left. */
  lemma RetryRefusedExactly(w: World, e: Event)
    requires Sound(w) && e.Call? && DecisionOf(w, e).write.Some?
    ensures Next(w, e).pointers != []
    ensures DecisionOf(Next(w, e), e).result == Rejected <==> Interrupted(w, e)
  {
    hide FromPointer, Keeps;
    CallKeeps(w, e);
  }

  /** The very first call can do it. */
  lemma FirstCallCloses(first: Snapshot, id: string)
    requires ValidSnapshot(first)
    ensures var call := Call(false, id, 1, TemporaryLeft);
      && Interrupted(Start(first), call)
      && forall events, e: Event | e.Call? :: DecisionOf(Run(Next(Start(first), call), events), e).result == Rejected
  {
    var call := Call(false, id, 1, TemporaryLeft);
    var w := Next(Start(first), call);
    forall events, e: Event | e.Call? ensures DecisionOf(Run(w, events), e).result == Rejected {
      StrayClosesTheJournal(w, events);
    }
  }

  lemma {:induction false} RunLast(w: World, events: seq<Event>)
    requires w.pointers != [] && events != []
    ensures Run(w, events) == Next(Run(w, events[..|events| - 1]), events[|events| - 1])
    decreases |events|
  {
    var front := events[..|events| - 1];
    if front != [] {
      RunLast(Next(w, events[0]), events[1..]);
      assert events[1..][..|events| - 2] == front[1..];
    }
  }

  /** The journal is closed by exactly the runs in which some call was interrupted. */
  lemma {:induction false} ClosedExactly(w: World, events: seq<Event>)
    requires w.pointers != [] && !w.stray
    ensures Run(w, events).stray <==> exists k | 0 <= k < |events| :: Interrupted(Run(w, events[..k]), events[k])
    decreases |events|
  {
    if events != [] {
      var n := |events| - 1;
      var front := events[..n];
      RunLast(w, events);
      ClosedExactly(w, front);
      assert forall k | 0 <= k < n :: front[..k] == events[..k] && front[k] == events[k];
      if exists k | 0 <= k < n :: Interrupted(Run(w, front[..k]), front[k]) {
        var k :| 0 <= k < n && Interrupted(Run(w, front[..k]), front[k]);
        assert Interrupted(Run(w, events[..k]), events[k]);
      }
      if Run(w, events).stray && !Run(w, front).stray {
        assert Interrupted(Run(w, events[..n]), events[n]);
      }
      if k :| 0 <= k < |events| && Interrupted(Run(w, events[..k]), events[k]) && !Run(w, front).stray {
        assert k == n;
      }
    }
  }

  // ---------------------------------------------------------------- the helper over the files

  class RotationHelper {
    var states: map<string, State>
    var stray: bool
    ghost var world: World

    ghost predicate Valid()
      reads this
    {
      Sound(world) && world.states == states && world.stray == stray
    }

    constructor (first: Snapshot)
      ensures Valid() && world == Start(first)
    {
      states := map[];
      stray := false;
      world := Start(first);
    }

    /** The fixture role moves the pointer on its own. */
    ghost method PointerMoves(to: Snapshot)
      requires Valid()
      modifies this`world
      ensures Valid() && world == Next(old(world), Move(to))
    {
      StepKeeps(world, Move(to));
      world := Next(world, Move(to));
    }

    method AtomicWrite(id: string, state: State) returns (ending: Ending)
      modifies this`states, this`stray
      ensures ending == BeforeTemporary ==> states == old(states) && stray == old(stray)
      ensures ending == TemporaryLeft ==> states == old(states) && stray
      ensures ending == AfterReplace || ending == Finished ==> states == old(states)[id := state] && stray == old(stray)
    {
      var created: bool, replaced: bool, crashed: bool := *, *, *;
      if crashed && !created { return BeforeTemporary; }
      if crashed && !replaced {
        stray := true;
        return TemporaryLeft;
      }
      states := states[id := state];
      return if crashed then AfterReplace else Finished;
    }

    /** One helper call on the current snapshot. `result` is what it reports unless it crashed. */
    method Reconcile(finalize: bool, id: string, current: Snapshot, nowMs: int) returns (result: Result, ending: Ending)
      requires Valid() && current == Current(world)
      modifies this
      ensures Valid() && world == Next(old(world), Call(finalize, id, nowMs, ending))
      ensures result == DecisionOf(old(world), Call(finalize, id, nowMs, ending)).result
    {
      hide Sound, Keeps, ValidSnapshot, ValidTransition, ValidState, OtherPrepared, OthersValid;
      ending := Finished;
      result := Rejected;
      ghost var w := world;
      SoundHasPointer(w);
      if ValidSnapshot(current) && !stray && OthersValid(states, id) && !OtherPrepared(states, id) {
        if id !in states {
          if !finalize {
            ending := AtomicWrite(id, Prepared(current));
            result := RotateRequired;
          }
        } else {
          var state := states[id];
          if !ValidState(state, id) {
          } else if state.Selected? {
            if current == state.after { result := AlreadySelected; }
          } else if current == state.before {
            if !finalize { result := RotateRequired; }
          } else if ValidTransition(state.before, current) && current.request == Some(Forced(id)) && nowMs >= 1 {
            ending := AtomicWrite(id, Selected(state.before, current, nowMs));
            result := RotationSelected;
          }
        }
      }
      ghost var call := Call(finalize, id, nowMs, ending);
      StepKeeps(w, call);
      world := Next(w, call);
    }
  }
}
