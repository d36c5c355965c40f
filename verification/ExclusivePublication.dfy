/**
 No-replace publication of one file, and its recovery after a crash at any step
 (deploy/scripts/active_edge_reboot_journal.py, `_normalize_exclusive_target` and
 `_exclusive_atomic_write`).

 A volume is one directory: names map to inodes, and inodes hold bytes of which a prefix is
 known to be on disk.  Directory operations that were not yet synced are remembered as the
 list of views they went through; a crash keeps one of those views, and for every inode some
 prefix of its data that covers at least the synced part.
 */
module ExclusivePublication {

  type Byte = b: int | 0 <= b < 256
  type Bytes = seq<Byte>
  type Name = string
  type View = map<Name, nat>

  import opened Options

  /** `guarded` is the protected-file test: a regular, runner-owned file of mode 0600. */
  datatype File = File(data: Bytes, synced: nat, guarded: bool)

  /** `views` are the directory states since the last directory sync; the last one is current. */
  datatype Disk = Disk(views: seq<View>, files: map<nat, File>, next: nat) {
    predicate Valid() {
      && |views| > 0
      && (forall k | 0 <= k < |views| :: Backed(views[k], files))
      && (forall i | i in files :: i < next && files[i].synced <= |files[i].data|)
    }

    function Current(): View
      requires |views| > 0
    {
      views[|views| - 1]
    }

    /** Nothing is left that a crash could take away. */
    predicate Settled() {
      && Valid()
      && |views| == 1
      && forall i | i in files :: files[i].synced == |files[i].data|
    }
  }

  predicate Backed(v: View, files: map<nat, File>) {
    forall n | n in v :: v[n] in files
  }

  /** The states a crash of `d` may leave behind. */
  predicate CrashImage(d: Disk, e: Disk) {
    && (exists k | 0 <= k < |d.views| :: e.views == [d.views[k]])
    && e.next == d.next
    && e.files.Keys == d.files.Keys
    && forall i | i in d.files ::
         && e.files[i].guarded == d.files[i].guarded
         && d.files[i].synced <= |e.files[i].data|
         && e.files[i].data <= d.files[i].data
         && e.files[i].synced == |e.files[i].data|
  }

  function Staging(target: Name): Name {
    "." + target + ".exclusive-staging"
  }

  lemma StagingDiffers(target: Name)
    ensures Staging(target) != target
  {
    assert |Staging(target)| > |target|;
  }

  /** The names an inode is linked under; the link count is their number. */
  function NamesOf(v: View, i: nat): set<Name> {
    set n | n in v && v[n] == i
  }

  /** The read of a file under its exact protection, link-count and size demands. */
  function Candidate(d: Disk, name: Name, maximum: nat, links: set<nat>, allowEmpty: bool): Option<Bytes>
    requires d.Valid()
  {
    var v := d.Current();
    if name !in v then None
    else
      var f := d.files[v[name]];
      if f.guarded && |NamesOf(v, v[name])| in links && (allowEmpty || f.data != []) && |f.data| <= maximum
      then Some(f.data) else None
  }

  /** The bound of every protected read, and what the recovery reads of a target unless told otherwise. */
  const MAX_READ: int := 2 * 1024 * 1024
  const MAX_NORMALIZE: int := 16 * 1024 * 1024

  // ---------------------------------------------------------------- the abstract slot

  /** What a target and its staging file amount to. */
  datatype Slot =
    | Empty                      // neither name exists
    | Staged(raw: Bytes)         // only the staging name exists, possibly torn
    | Linked(raw: Bytes)         // both names are links to one complete file
    | Published(raw: Bytes)      // only the target exists

  datatype Reason = EmptyContent | OutsideBounds | UnrelatedStaging | UnaccountedLink | Mismatch | DifferentContent
  datatype Outcome = Done | Rejected(reason: Reason) | Crashed

  function SlotOf(d: Disk, target: Name): Slot
    requires d.Valid()
  {
    var v := d.Current();
    if target in v then
      if Staging(target) in v then Linked(d.files[v[target]].data) else Published(d.files[v[target]].data)
    else if Staging(target) in v then Staged(d.files[v[Staging(target)]].data)
    else Empty
  }

  /** The settled states that the protocol and crashes alone produce for one target. */
  ghost predicate InProtocol(d: Disk, target: Name) {
    && d.Settled()
    && var v := d.Current();
       var staging := Staging(target);
       match SlotOf(d, target) {
         case Empty => true
         case Staged(_) => d.files[v[staging]].guarded && NamesOf(v, v[staging]) == {staging}
         case Linked(raw) =>
           && raw != [] && v[staging] == v[target]
           && d.files[v[target]].guarded && NamesOf(v, v[target]) == {target, staging}
         case Published(raw) => raw != [] && d.files[v[target]].guarded && NamesOf(v, v[target]) == {target}
       }
  }

  /** A publication of `content` can go through from slot `s`. */
  predicate Admits(s: Slot, content: Bytes) {
    && content != []
    && match s {
         case Empty => true
         case Staged(raw) => |raw| <= |content|
         case Linked(raw) => raw == content
         case Published(raw) => raw == content
       }
  }

  /** The slots a crash may leave while `content` is being published from slot `s`. */
  predicate CrashReach(s: Slot, content: Bytes, s': Slot) {
    || s' == s
    || (s.Linked? && s' == Published(s.raw))
    || ((s.Empty? || s.Staged?) && Admits(s, content) && WriterSlot(s', content))
  }

  /** The slot after a refused publication: at most an interrupted link has been tidied. */
  predicate RefusedSlot(s: Slot, content: Bytes, s': Slot) {
    s' == if s.Linked? && 0 < |s.raw| <= |content| then Published(s.raw) else s
  }

  /** Everything one call of the recovery may do to its slot. */
  predicate NormalizeStep(s: Slot, maximum: nat, out: Outcome, s': Slot) {
    match out
    case Done => (s.Linked? || s.Published? ==> |s.raw| <= maximum) && s' == (if s.Linked? then Published(s.raw) else s)
    case Rejected(reason) => reason == OutsideBounds && s' == s && (s.Linked? || s.Published?) && |s.raw| > maximum
    case Crashed => s' == s || (s.Linked? && s' == Published(s.raw))
  }

  /** Everything one call of the publication may do to its slot. */
  predicate PublishStep(s: Slot, content: Bytes, out: Outcome, s': Slot) {
    match out
    case Done => Admits(s, content) && s' == Published(content)
    case Rejected(reason) =>
      && !Admits(s, content) && RefusedSlot(s, content, s')
      && reason in {EmptyContent, OutsideBounds, DifferentContent}
    case Crashed => CrashReach(s, content, s')
  }

  // ---------------------------------------------------------------- whole runs of attempts

  datatype Attempt = Attempt(content: Bytes, out: Outcome)

  /** A run: any number of attempts, each possibly cut short by a crash, one slot after the other. */
  ghost predicate Run(slots: seq<Slot>, attempts: seq<Attempt>) {
    && |slots| == |attempts| + 1
    && forall k | 0 <= k < |attempts| :: PublishStep(slots[k], attempts[k].content, attempts[k].out, slots[k + 1])
  }

  ghost predicate AllOf(attempts: seq<Attempt>, content: Bytes) {
    forall k | 0 <= k < |attempts| :: attempts[k].content == content
  }

  function TargetOf(s: Slot): Option<Bytes> {
    if s.Linked? || s.Published? then Some(s.raw) else None
  }

  /** Retrying one content is never refused, and a completed attempt has published exactly it. */
  lemma {:induction false} RetriesConverge(slots: seq<Slot>, attempts: seq<Attempt>, content: Bytes, k: nat)
    requires Run(slots, attempts) && AllOf(attempts, content) && k <= |attempts|
    requires Admits(slots[0], content)
    ensures Admits(slots[k], content)
    ensures k < |attempts| ==> !attempts[k].out.Rejected?
    ensures k < |attempts| && attempts[k].out == Done ==> slots[k + 1] == Published(content)
  {
    if k > 0 {
      RetriesConverge(slots, attempts, content, k - 1);
      assert PublishStep(slots[k - 1], content, attempts[k - 1].out, slots[k]);
    }
    if k < |attempts| {
      assert PublishStep(slots[k], content, attempts[k].out, slots[k + 1]);
    }
  }

  /** Conversely, one completed attempt shows that the first slot admitted the content: leftovers
      longer than the content, and other published contents, are never overcome by retrying. */
  lemma {:induction false} SuccessNeedsAdmission(slots: seq<Slot>, attempts: seq<Attempt>, content: Bytes, k: nat)
    requires Run(slots, attempts) && AllOf(attempts, content) && k <= |attempts|
    requires Admits(slots[k], content)
    ensures Admits(slots[0], content)
    decreases k
  {
    if k > 0 {
      assert PublishStep(slots[k - 1], content, attempts[k - 1].out, slots[k]);
      SuccessNeedsAdmission(slots, attempts, content, k - 1);
    }
  }

  /** Whatever contents are attempted, a target once visible keeps its one content for ever. */
  lemma {:induction false} TargetIsForever(slots: seq<Slot>, attempts: seq<Attempt>, i: nat, j: nat)
    requires Run(slots, attempts) && i <= j <= |attempts|
    requires TargetOf(slots[i]).Some?
    ensures TargetOf(slots[j]) == TargetOf(slots[i])
    decreases j
  {
    if i < j {
      TargetIsForever(slots, attempts, i, j - 1);
      assert PublishStep(slots[j - 1], attempts[j - 1].content, attempts[j - 1].out, slots[j]);
    }
  }

  /** From nothing, a visible target is exactly one of the attempted contents, complete. */
  lemma {:induction false} TargetIsAnAttempt(slots: seq<Slot>, attempts: seq<Attempt>, k: nat) returns (origin: nat)
    requires Run(slots, attempts) && k <= |attempts| && slots[0] == Empty
    requires TargetOf(slots[k]).Some?
    ensures origin < k && attempts[origin].content == TargetOf(slots[k]).value
    decreases k
  {
    assert PublishStep(slots[k - 1], attempts[k - 1].content, attempts[k - 1].out, slots[k]);
    if TargetOf(slots[k - 1]).Some? {
      origin := TargetIsAnAttempt(slots, attempts, k - 1);
    } else {
      origin := k - 1;
    }
  }

  /** Two attempts that both report success had the same content. */
  lemma OneContentSucceeds(slots: seq<Slot>, attempts: seq<Attempt>, i: nat, j: nat)
    requires Run(slots, attempts) && i <= j < |attempts|
    requires attempts[i].out == Done && attempts[j].out == Done
    ensures attempts[i].content == attempts[j].content
  {
    assert PublishStep(slots[i], attempts[i].content, Done, slots[i + 1]);
    assert PublishStep(slots[j], attempts[j].content, Done, slots[j + 1]);
    if i < j { TargetIsForever(slots, attempts, i + 1, j + 1); }
  }

  /** Names other than the target and its staging keep their inodes, bytes and protection. */
  ghost predicate SameElsewhere(d: Disk, e: Disk, target: Name)
    requires d.Valid() && e.Valid()
  {
    && (forall n | n != target && n != Staging(target) :: n in d.Current() <==> n in e.Current())
    && forall n | n != target && n != Staging(target) && n in d.Current() ::
         e.Current()[n] == d.Current()[n] && e.files[e.Current()[n]] == d.files[d.Current()[n]]
  }

  /** An existing target keeps its inode and its bytes. */
  ghost predicate TargetKept(d: Disk, e: Disk, target: Name)
    requires d.Valid() && e.Valid()
  {
    target in d.Current() ==>
      && target in e.Current() && e.Current()[target] == d.Current()[target]
      && e.files[e.Current()[target]].data == d.files[d.Current()[target]].data
  }

  // ---------------------------------------------------------------- one crash lemma for the writer

  ghost predicate NormalizeResult(start: Disk, d: Disk, target: Name, maximum: nat, out: Outcome) {
    && start.Valid() && InProtocol(d, target) && SameElsewhere(start, d, target)
    && NormalizeStep(SlotOf(start, target), maximum, out, SlotOf(d, target))
  }

  ghost predicate PublishResult(start: Disk, d: Disk, target: Name, content: Bytes, out: Outcome) {
    && start.Valid() && InProtocol(d, target) && SameElsewhere(start, d, target)
    && PublishStep(SlotOf(start, target), content, out, SlotOf(d, target))
  }

  /** The writer is under way: from `base`, which names neither file, the directory went through
      views that add the staging link, then the target link, then drop the staging link. */
  ghost predicate UnderWay(start: Disk, base: View, d: Disk, target: Name, content: Bytes, ino: nat) {
    && start.Settled() && d.Valid() && content != []
    && target !in base && Staging(target) !in base
    && ino in d.files && (forall n | n in base :: base[n] != ino)
    && Backed(base, d.files) && Backed(base, start.files)
    && (forall n | n in base :: n in start.Current() && base[n] == start.Current()[n])
    && (forall n | n in start.Current() && n != target && n != Staging(target) :: n in base)
    && (forall i | i in d.files && i != ino :: d.files[i].synced == |d.files[i].data|)
    && (forall n | n in base :: d.files[base[n]] == start.files[base[n]])
    && d.files[ino].guarded && d.files[ino].data <= content
    && (forall k | 0 <= k < |d.views| :: WriterView(base, d.views[k], target, ino, d.files[ino], content))
  }

  predicate WriterView(base: View, v: View, target: Name, ino: nat, f: File, content: Bytes) {
    || v == base
    || v == base[Staging(target) := ino]
    || (&& (v == base[Staging(target) := ino][target := ino] || v == base[target := ino])
        && f.data == content && f.synced == |content|)
  }

  /** Ready to create the staging file: only a stale staging link may have been removed. */
  ghost predicate Ready(start: Disk, d: Disk, target: Name) {
    && start.Settled() && d.Settled() && d.files == start.files && d.next == start.next
    && target !in start.Current() && d.Current() == start.Current() - {Staging(target)}
  }

  predicate StagedComplete(d: Disk, target: Name, content: Bytes)
    requires d.Valid()
  {
    && Staging(target) in d.Current()
    && d.files[d.Current()[Staging(target)]].data == content
    && d.files[d.Current()[Staging(target)]].synced == |content|
  }

  predicate HoldsContent(d: Disk, target: Name, content: Bytes)
    requires d.Valid()
  {
    target in d.Current() && d.files[d.Current()[target]].data == content
  }

  /** The target stays linked to the staged bytes while the directory is synced and tidied. */
  lemma LinkedHolds(d: Disk, e: Disk, target: Name, content: Bytes)
    requires d.Valid() && e.Valid() && StagedComplete(d, target, content)
    requires e.files == d.files && e.Current() == d.Current()[target := d.Current()[Staging(target)]]
    ensures HoldsContent(e, target, content) && Staging(target) in e.Current()
  {
    StagingDiffers(target);
  }

  lemma UnlinkedHolds(d: Disk, e: Disk, target: Name, content: Bytes)
    requires d.Valid() && e.Valid() && HoldsContent(d, target, content)
    requires e.files == d.files && (e.Current() == d.Current() || e.Current() == d.Current() - {Staging(target)})
    ensures HoldsContent(e, target, content)
  {
    StagingDiffers(target);
  }

  /** The state a crash of the writer leaves: a slot holding nothing but (part of) `content`. */
  ghost predicate AfterWriterCrash(start: Disk, d: Disk, target: Name, content: Bytes) {
    && start.Valid() && d.Valid()
    && InProtocol(d, target) && SameElsewhere(start, d, target)
    && WriterSlot(SlotOf(d, target), content)
  }

  predicate WriterSlot(s: Slot, content: Bytes) {
    match s
    case Empty => true
    case Staged(raw) => raw <= content
    case Linked(raw) => raw == content
    case Published(raw) => raw == content
  }

  lemma CrashKeepsValid(d: Disk, e: Disk)
    requires d.Valid() && CrashImage(d, e)
    ensures e.Settled()
  {
  }

  lemma StepCreate(start: Disk, d: Disk, e: Disk, target: Name, content: Bytes)
    requires Ready(start, d, target) && content != []
    requires e == Disk(d.views + [d.Current()[Staging(target) := d.next]], d.files[d.next := File([], 0, true)], d.next + 1)
    ensures UnderWay(start, d.Current(), e, target, content, d.next)
    ensures e.views == [d.Current(), d.Current()[Staging(target) := d.next]]
  {
    StagingDiffers(target);
  }

  lemma WrittenComplete(d: Disk, e: Disk, target: Name, content: Bytes)
    requires d.Valid() && e.Valid() && target !in d.Current()
    requires e == Disk(d.views + [d.Current()[Staging(target) := d.next]], d.files[d.next := File(content, |content|, true)], d.next + 1)
    ensures target !in e.Current() && StagedComplete(e, target, content)
  {
    StagingDiffers(target);
  }

  lemma StepWrite(start: Disk, base: View, d: Disk, e: Disk, target: Name, content: Bytes, ino: nat, done: nat)
    requires UnderWay(start, base, d, target, content, ino) && done <= |content|
    requires d.views == [base, base[Staging(target) := ino]]
    requires e == d.(files := d.files[ino := File(content[..done], 0, true)])
    ensures UnderWay(start, base, e, target, content, ino)
  {
    StagingDiffers(target);
  }

  lemma StepSync(start: Disk, base: View, d: Disk, e: Disk, target: Name, content: Bytes, ino: nat)
    requires UnderWay(start, base, d, target, content, ino)
    requires d.views == [base, base[Staging(target) := ino]]
    requires e == d.(files := d.files[ino := d.files[ino].(synced := |d.files[ino].data|)])
    ensures UnderWay(start, base, e, target, content, ino)
  {
    StagingDiffers(target);
  }

  /** One of the writer's views, with whatever part of the content is on disk, is a slot. */
  lemma WriterShape(base: View, e: Disk, target: Name, content: Bytes, ino: nat)
    requires e.Settled() && target !in base && Staging(target) !in base && content != []
    requires ino in e.files && e.files[ino].guarded && e.files[ino].data <= content
    requires forall n | n in base :: base[n] != ino
    requires WriterView(base, e.Current(), target, ino, e.files[ino], content)
    ensures InProtocol(e, target) && WriterSlot(SlotOf(e, target), content)
  {
    StagingDiffers(target);
    var v, staging := e.Current(), Staging(target);
    if v == base[staging := ino] {
      assert NamesOf(v, ino) == {staging};
    } else if v == base[staging := ino][target := ino] {
      assert NamesOf(v, ino) == {target, staging};
    } else if v == base[target := ino] {
      assert NamesOf(v, ino) == {target};
    }
  }

  lemma CrashUnderWay(start: Disk, base: View, d: Disk, e: Disk, target: Name, content: Bytes, ino: nat)
    requires UnderWay(start, base, d, target, content, ino) && CrashImage(d, e)
    ensures AfterWriterCrash(start, e, target, content)
  {
    StagingDiffers(target);
    CrashKeepsValid(d, e);
    forall i | i in d.files && d.files[i].synced == |d.files[i].data| ensures e.files[i] == d.files[i] {}
    WriterShape(base, e, target, content, ino);
    hide InProtocol, SlotOf, WriterSlot, NamesOf;
    WriterFrame(start, base, e, target, ino, content);
  }

  lemma WriterFrame(start: Disk, base: View, e: Disk, target: Name, ino: nat, content: Bytes)
    requires start.Valid() && e.Valid() && target !in base && Staging(target) !in base
    requires ino in e.files && WriterView(base, e.Current(), target, ino, e.files[ino], content)
    requires Backed(base, e.files) && Backed(base, start.files)
    requires forall n | n in base :: n in start.Current() && base[n] == start.Current()[n] && e.files[base[n]] == start.files[base[n]]
    requires forall n | n in start.Current() && n != target && n != Staging(target) :: n in base
    ensures SameElsewhere(start, e, target)
  {
    forall n | n != target && n != Staging(target)
      ensures n in e.Current() <==> n in base
      ensures n in base ==> e.Current()[n] == base[n]
    {
    }
  }

  /** A settled disk has no other crash image than itself. */
  lemma CrashOfSettled(d: Disk, e: Disk)
    requires d.Settled() && CrashImage(d, e)
    ensures e == d
  {
    assert e.views == d.views;
    forall i | i in d.files ensures e.files[i] == d.files[i] {}
  }

  lemma StepView(start: Disk, base: View, d: Disk, e: Disk, target: Name, content: Bytes, ino: nat)
    requires UnderWay(start, base, d, target, content, ino)
    requires d.files[ino].data == content && d.files[ino].synced == |content|
    requires e.files == d.files && e.next == d.next && |e.views| == |d.views| + 1 && e.views[..|d.views|] == d.views
    requires e.Current() == base[Staging(target) := ino][target := ino] || e.Current() == base[target := ino]
    ensures UnderWay(start, base, e, target, content, ino)
  {
  }

  lemma StagedFile(start: Disk, base: View, d: Disk, target: Name, content: Bytes, ino: nat)
    requires UnderWay(start, base, d, target, content, ino) && d.Current() == base[Staging(target) := ino]
    requires StagedComplete(d, target, content)
    ensures ino in d.files && d.files[ino].data == content && d.files[ino].synced == |content|
  {
  }

  lemma LinkedFile(start: Disk, base: View, d: Disk, target: Name, content: Bytes, ino: nat)
    requires UnderWay(start, base, d, target, content, ino)
    requires d.Current() == base[Staging(target) := ino][target := ino]
    ensures ino in d.files && d.files[ino].data == content && d.files[ino].synced == |content|
  {
    StagingDiffers(target);
    var v := d.Current();
    assert target in v && target !in base && target !in base[Staging(target) := ino];
    assert WriterView(base, d.views[|d.views| - 1], target, ino, d.files[ino], content);
  }

  lemma UnderWayBase(start: Disk, base: View, d: Disk, target: Name, content: Bytes, ino: nat)
    requires UnderWay(start, base, d, target, content, ino)
    ensures base[Staging(target) := ino][target := ino] - {Staging(target)} == base[target := ino]
  {
    StagingDiffers(target);
  }

  lemma StepSyncDirectory(start: Disk, base: View, d: Disk, e: Disk, target: Name, content: Bytes, ino: nat)
    requires UnderWay(start, base, d, target, content, ino)
    requires e == d.(views := [d.Current()])
    ensures UnderWay(start, base, e, target, content, ino)
  {
  }

  /** The writer's last state is one of its own crash images. */
  lemma FinishedWriter(start: Disk, base: View, d: Disk, target: Name, content: Bytes, ino: nat)
    requires UnderWay(start, base, d, target, content, ino) && d.views == [base[target := ino]]
    requires d.files[ino].synced == |d.files[ino].data|
    ensures AfterWriterCrash(start, d, target, content) && SlotOf(d, target) == Published(content)
  {
    assert d.views == [d.views[0]];
    CrashUnderWay(start, base, d, d, target, content, ino);
  }

  /** What the recovery finds in the states the protocol and crashes produce. */
  lemma NormalizeFacts(d: Disk, target: Name, maximum: nat)
    requires InProtocol(d, target)
    ensures d.Settled() && SameElsewhere(d, d, target)
    ensures var v, staging, s := d.Current(), Staging(target), SlotOf(d, target);
            if target !in v then s.Empty? || s.Staged?
            else
              && (s.Linked? <==> staging in v) && (s.Published? <==> staging !in v)
              && |NamesOf(v, v[target])| == (if staging in v then 2 else 1)
              && Candidate(d, target, maximum, {1, 2}, false) == (if |s.raw| <= maximum then Some(s.raw) else None)
              && (staging in v ==> v[staging] == v[target]
                                   && Candidate(d, staging, maximum, {2}, false) == Candidate(d, target, maximum, {1, 2}, false))
  {
    StagingDiffers(target);
  }

  /** Once the second link is gone the target still reads as before, in any state at all. */
  lemma TidiedCandidate(d: Disk, e: Disk, target: Name, maximum: nat)
    requires d.Valid() && e.Valid() && target in d.Current() && Staging(target) in d.Current()
    requires d.Current()[Staging(target)] == d.Current()[target]
    requires Candidate(d, Staging(target), maximum, {2}, false).Some?
    requires e == d.(views := [d.Current() - {Staging(target)}])
    ensures Candidate(e, target, maximum, {1}, false) == Candidate(d, target, maximum, {1, 2}, false)
  {
    StagingDiffers(target);
    var ino := d.Current()[target];
    assert NamesOf(e.Current(), ino) == NamesOf(d.Current(), ino) - {Staging(target)};
    assert Staging(target) in NamesOf(d.Current(), ino);
  }

  lemma SyncedNothing(start: Disk, d: Disk, e: Disk, crashed: bool)
    requires start.Settled() && d == start.(views := [start.Current()])
    requires if crashed then CrashImage(d, e) else e == d
    ensures e == start
  {
    assert start.views == [start.Current()];
    if crashed { CrashOfSettled(d, e); }
  }

  /** Dropping the staging name from a slot turns a link into a publication and a draft into nothing. */
  lemma DroppedStaging(start: Disk, target: Name)
    requires InProtocol(start, target) && Staging(target) in start.Current()
    ensures var e := start.(views := [start.Current() - {Staging(target)}]);
            && InProtocol(e, target) && SameElsewhere(start, e, target)
            && SlotOf(e, target) == if SlotOf(start, target).Linked? then Published(SlotOf(start, target).raw) else Empty
  {
    StagingDiffers(target);
    var e := start.(views := [start.Current() - {Staging(target)}]);
    if target in start.Current() {
      var ino := e.Current()[target];
      assert NamesOf(e.Current(), ino) == NamesOf(start.Current(), ino) - {Staging(target)};
    }
  }

  /** A complete staging file left by an earlier attempt is as good as one just written. */
  lemma StagedUnderWay(start: Disk, target: Name, content: Bytes)
    requires InProtocol(start, target) && SlotOf(start, target) == Staged(content) && content != []
    ensures UnderWay(start, start.Current() - {Staging(target)}, start, target, content, start.Current()[Staging(target)])
  {
    var base, ino := start.Current() - {Staging(target)}, start.Current()[Staging(target)];
    forall n | n in base ensures base[n] != ino {
      assert n !in NamesOf(start.Current(), ino);
    }
    assert start.Current() == base[Staging(target) := ino];
  }

  /** A crash after one unsynced removal keeps it or loses it. */
  lemma CrashTidying(start: Disk, d: Disk, e: Disk)
    requires start.Settled() && CrashImage(d, e)
    requires d.files == start.files && d.next == start.next && |d.views| == 2 && d.views[0] == start.Current()
    ensures e == start || e == start.(views := [d.views[1]])
  {
    forall i | i in d.files ensures e.files[i] == d.files[i] {}
    assert e.files == start.files;
    assert start.views == [start.Current()];
  }

  // ---------------------------------------------------------------- the volume and its system calls

  class Volume {
    var disk: Disk

    constructor (d: Disk)
      ensures disk == d
    {
      disk := d;
    }

    /** The machine may stop here. */
    method MaybeCrash() returns (crashed: bool)
      modifies this
      ensures crashed ==> CrashImage(old(disk), disk)
      ensures !crashed ==> disk == old(disk)
    {
      var image: Disk := *;
      crashed := *;
      crashed := crashed && CrashImage(disk, image);
      if crashed { disk := image; }
    }

    method SyncDirectory()
      requires disk.Valid()
      modifies this
      ensures disk.Valid()
      ensures disk == old(disk).(views := [old(disk).Current()])
    {
      disk := disk.(views := [disk.Current()]);
    }

    method Unlink(name: Name)
      requires disk.Valid() && name in disk.Current()
      modifies this
      ensures disk.Valid()
      ensures disk == old(disk).(views := old(disk).views + [old(disk).Current() - {name}])
    {
      disk := disk.(views := disk.views + [disk.Current() - {name}]);
    }

    method Create(name: Name) returns (ino: nat)
      requires disk.Valid() && name !in disk.Current()
      modifies this
      ensures disk.Valid()
      ensures ino == old(disk).next
      ensures disk == Disk(old(disk).views + [old(disk).Current()[name := ino]],
                           old(disk).files[ino := File([], 0, true)], ino + 1)
    {
      ino := disk.next;
      disk := Disk(disk.views + [disk.Current()[name := ino]], disk.files[ino := File([], 0, true)], ino + 1);
    }

    /** One `write` call: it accepts some non-empty part of what is offered. */
    method Write(ino: nat, chunk: Bytes) returns (written: nat)
      requires disk.Valid() && ino in disk.files && chunk != []
      modifies this
      ensures disk.Valid()
      ensures 0 < written <= |chunk|
      ensures disk == old(disk).(files := old(disk).files[ino := old(disk).files[ino].(
                                   data := old(disk).files[ino].data + chunk[..written])])
    {
      written := *;
      if !(0 < written <= |chunk|) { written := |chunk|; }
      disk := disk.(files := disk.files[ino := disk.files[ino].(data := disk.files[ino].data + chunk[..written])]);
    }

    method SyncFile(ino: nat)
      requires disk.Valid() && ino in disk.files
      modifies this
      ensures disk.Valid()
      ensures disk == old(disk).(files := old(disk).files[ino := old(disk).files[ino].(
                                   synced := |old(disk).files[ino].data|)])
    {
      disk := disk.(files := disk.files[ino := disk.files[ino].(synced := |disk.files[ino].data|)]);
    }

    /** `link` without replacement: it refuses an existing name. */
    method Link(existing: Name, name: Name) returns (linked: bool)
      requires disk.Valid() && existing in disk.Current()
      modifies this
      ensures disk.Valid()
      ensures linked == (name !in old(disk).Current())
      ensures !linked ==> disk == old(disk)
      ensures linked ==> disk == old(disk).(views := old(disk).views
                                   + [old(disk).Current()[name := old(disk).Current()[existing]]])
    {
      linked := name !in disk.Current();
      if linked {
        disk := disk.(views := disk.views + [disk.Current()[name := disk.Current()[existing]]]);
      }
    }

    // -------------------------------------------------------------- the protocol

    /** Finish the one hard-link state an interrupted publication may leave. */
    method NormalizeExclusiveTarget(target: Name, maximum: nat) returns (out: Outcome)
      requires disk.Valid()
      modifies this
      ensures disk.Valid()
      ensures out != Crashed ==> TargetKept(old(disk), disk, target)
      ensures InProtocol(old(disk), target) ==> NormalizeResult(old(disk), disk, target, maximum, out)
    {
      StagingDiffers(target);
      var staging := Staging(target);
      ghost var start, clean := disk, InProtocol(disk, target);
      if clean { NormalizeFacts(disk, target, maximum); }
      hide InProtocol, SlotOf, Candidate, NamesOf, SameElsewhere, Disk.Settled;
      if target !in disk.Current() { return Done; }
      var raw := Candidate(disk, target, maximum, {1, 2}, false);
      if raw == None { return Rejected(OutsideBounds); }
      var ino := disk.Current()[target];
      if |NamesOf(disk.Current(), ino)| == 1 {
        if staging in disk.Current() { return Rejected(UnrelatedStaging); }
        SyncDirectory();
        ghost var now := disk;
        var crashed := MaybeCrash();
        if crashed { CrashKeepsValid(now, disk); }
        if clean { SyncedNothing(start, now, disk, crashed); }
        return if crashed then Crashed else Done;
      }
      if staging !in disk.Current() { return Rejected(UnaccountedLink); }
      var staged := Candidate(disk, staging, maximum, {2}, false);
      if staged == None { return Rejected(OutsideBounds); }
      if disk.Current()[staging] != ino || staged != raw { return Rejected(Mismatch); }
      out := DropStaging(target, start);
      if out == Crashed { return; }
      TidiedCandidate(start, disk, target, maximum);
      var final := Candidate(disk, target, maximum, {1}, false);
      if final != raw { assert false; }
      return Done;
    }

    /** Remove the staging name and sync the directory. */
    method DropStaging(target: Name, ghost start: Disk) returns (out: Outcome)
      requires disk.Valid() && disk == start && Staging(target) in disk.Current()
      modifies this
      ensures disk.Valid()
      ensures out in {Done, Crashed}
      ensures out == Done ==> disk == start.(views := [start.Current() - {Staging(target)}])
      ensures InProtocol(start, target) ==>
                && InProtocol(disk, target) && SameElsewhere(start, disk, target)
                && var s' := SlotOf(disk, target);
                   || s' == (if SlotOf(start, target).Linked? then Published(SlotOf(start, target).raw) else Empty)
                   || (out == Crashed && s' == SlotOf(start, target))
    {
      ghost var clean := InProtocol(start, target);
      if clean { DroppedStaging(start, target); }
      Unlink(Staging(target));
      ghost var now := disk;
      var crashed := MaybeCrash();
      if crashed {
        CrashKeepsValid(now, disk);
        if clean { CrashTidying(start, now, disk); }
        return Crashed;
      }
      SyncDirectory();
      now := disk;
      crashed := MaybeCrash();
      if crashed {
        CrashKeepsValid(now, disk);
        if clean { CrashOfSettled(now, disk); }
        return Crashed;
      }
      return Done;
    }

    /** A point of the writer at which the machine may stop. */
    method WriterMayCrash(target: Name, content: Bytes, ghost start: Disk, ghost base: View, ghost ino: nat, ghost clean: bool)
      returns (crashed: bool)
      requires disk.Valid() && (clean ==> UnderWay(start, base, disk, target, content, ino))
      modifies this
      ensures disk.Valid()
      ensures if crashed then clean ==> AfterWriterCrash(start, disk, target, content) else disk == old(disk)
    {
      ghost var now := disk;
      crashed := MaybeCrash();
      if crashed {
        CrashKeepsValid(now, disk);
        if clean { CrashUnderWay(start, base, now, disk, target, content, ino); }
      }
    }

    /** Write all of `content`, however little each call accepts. */
    method WriteAll(ino: nat, target: Name, content: Bytes, ghost start: Disk, ghost base: View, ghost ready: bool)
      returns (crashed: bool)
      requires disk.Valid() && ino in disk.files && disk.files[ino] == File([], 0, true)
      requires ready ==> UnderWay(start, base, disk, target, content, ino) && disk.views == [base, base[Staging(target) := ino]]
      modifies this
      ensures disk.Valid()
      ensures !crashed ==> disk == old(disk).(files := old(disk).files[ino := File(content, 0, true)])
      ensures ready ==>
                if crashed then AfterWriterCrash(start, disk, target, content) else UnderWay(start, base, disk, target, content, ino)
    {
      hide UnderWay, AfterWriterCrash, Disk.Valid;
      ghost var before := disk;
      var done := 0;
      while done < |content|
        invariant done <= |content|
        invariant disk == before.(files := before.files[ino := File(content[..done], 0, true)])
        invariant disk.Valid()
        invariant ready ==> UnderWay(start, base, disk, target, content, ino)
      {
        ghost var prior := disk;
        var written := Write(ino, content[done..]);
        assert content[..done] + content[done..][..written] == content[..done + written];
        if ready { StepWrite(start, base, prior, disk, target, content, ino, done + written); }
        done := done + written;
        crashed := WriterMayCrash(target, content, start, base, ino, ready);
        if crashed { return; }
      }
      assert content[..done] == content;
      crashed := false;
    }

    /** Create the staging file, write all of `content` to it and sync it. */
    method WriteStaging(target: Name, content: Bytes, ghost start: Disk) returns (crashed: bool)
      requires disk.Valid() && content != []
      requires target !in disk.Current() && Staging(target) !in disk.Current()
      modifies this
      ensures disk.Valid()
      ensures !crashed ==> target !in disk.Current() && StagedComplete(disk, target, content)
      ensures Ready(start, old(disk), target) ==>
                if crashed then AfterWriterCrash(start, disk, target, content)
                else disk.Current() == old(disk).Current()[Staging(target) := old(disk).next]
                     && UnderWay(start, old(disk).Current(), disk, target, content, old(disk).next)
    {
      ghost var before, base, ready := disk, disk.Current(), Ready(start, disk, target);
      var ino := Create(Staging(target));
      if ready { StepCreate(start, before, disk, target, content); }
      hide UnderWay, AfterWriterCrash, Ready, Disk.Valid, StagedComplete;
      crashed := WriterMayCrash(target, content, start, base, ino, ready);
      if crashed { return; }
      crashed := WriteAll(ino, target, content, start, base, ready);
      if crashed { return; }
      ghost var prior := disk;
      SyncFile(ino);
      if ready { StepSync(start, base, prior, disk, target, content, ino); }
      WrittenComplete(before, disk, target, content);
      crashed := WriterMayCrash(target, content, start, base, ino, ready);
    }

    /** Link the staged file to its target and sync the directory. */
    method LinkStaging(target: Name, content: Bytes, ghost start: Disk, ghost base: View, ghost ino: nat, ghost clean: bool)
      returns (crashed: bool)
      requires disk.Valid() && target !in disk.Current() && StagedComplete(disk, target, content)
      requires clean ==> UnderWay(start, base, disk, target, content, ino) && disk.Current() == base[Staging(target) := ino]
      modifies this
      ensures disk.Valid()
      ensures !crashed ==> Staging(target) in disk.Current() && HoldsContent(disk, target, content)
      ensures clean ==>
                if crashed then AfterWriterCrash(start, disk, target, content)
                else UnderWay(start, base, disk, target, content, ino) && disk.views == [base[Staging(target) := ino][target := ino]]
    {
      ghost var staged := disk;
      if clean { StagedFile(start, base, disk, target, content, ino); }
      assert Staging(target) in disk.Current();
      hide UnderWay, AfterWriterCrash, StagedComplete, HoldsContent, Disk.Valid;
      var linked := Link(Staging(target), target);
      assert linked;
      LinkedHolds(staged, disk, target, content);
      if clean { StepView(start, base, staged, disk, target, content, ino); }
      crashed := WriterMayCrash(target, content, start, base, ino, clean);
      if crashed { return; }
      ghost var prior := disk;
      SyncDirectory();
      UnlinkedHolds(prior, disk, target, content);
      if clean { StepSyncDirectory(start, base, prior, disk, target, content, ino); }
      crashed := WriterMayCrash(target, content, start, base, ino, clean);
    }

    /** Drop the staging name of a linked target and sync the directory. */
    method UnlinkStaging(target: Name, content: Bytes, ghost start: Disk, ghost base: View, ghost ino: nat, ghost clean: bool)
      returns (crashed: bool)
      requires disk.Valid() && Staging(target) in disk.Current() && HoldsContent(disk, target, content)
      requires clean ==> UnderWay(start, base, disk, target, content, ino)
                         && disk.views == [base[Staging(target) := ino][target := ino]]
      modifies this
      ensures disk.Valid()
      ensures !crashed ==> HoldsContent(disk, target, content)
      ensures clean ==>
                && AfterWriterCrash(start, disk, target, content)
                && (!crashed ==> SlotOf(disk, target) == Published(content))
    {
      ghost var linked := disk;
      if clean { LinkedFile(start, base, disk, target, content, ino); }
      hide UnderWay, AfterWriterCrash, SlotOf, HoldsContent, Disk.Valid;
      Unlink(Staging(target));
      UnlinkedHolds(linked, disk, target, content);
      if clean {
        UnderWayBase(start, base, linked, target, content, ino);
        StepView(start, base, linked, disk, target, content, ino);
      }
      crashed := WriterMayCrash(target, content, start, base, ino, clean);
      if crashed { return; }
      ghost var prior := disk;
      SyncDirectory();
      UnlinkedHolds(prior, disk, target, content);
      if clean {
        StepSyncDirectory(start, base, prior, disk, target, content, ino);
        FinishedWriter(start, base, disk, target, content, ino);
      }
      crashed := WriterMayCrash(target, content, start, base, ino, clean);
    }

    /** An existing target is accepted only if it already holds `content`. */
    method RequireExisting(target: Name, content: Bytes) returns (out: Outcome)
      requires disk.Valid() && content != [] && target in disk.Current()
      modifies this
      ensures disk.Valid()
      ensures out != Crashed ==> TargetKept(old(disk), disk, target)
      ensures out == Done ==> HoldsContent(disk, target, content)
      ensures InProtocol(old(disk), target) ==> PublishResult(old(disk), disk, target, content, out)
    {
      ghost var start, clean := disk, InProtocol(disk, target);
      out := NormalizeExclusiveTarget(target, |content|);
      if out != Done { return; }
      var existing := Candidate(disk, target, |content|, {1}, false);
      if existing == None { return Rejected(OutsideBounds); }
      if existing.value != content { return Rejected(DifferentContent); }
      return Done;
    }

    /** Keep a staging file that already holds all of `content`, drop any other. */
    method ReuseStaging(target: Name, content: Bytes) returns (out: Outcome)
      requires disk.Valid() && content != []
      requires target !in disk.Current() && Staging(target) in disk.Current()
      modifies this
      ensures disk.Valid()
      ensures out != Crashed ==> target !in disk.Current()
      ensures out == Done && Staging(target) in disk.Current() ==> StagedComplete(disk, target, content)
      ensures InProtocol(old(disk), target) ==>
                match out {
                  case Done =>
                    && Admits(SlotOf(old(disk), target), content)
                    && (if Staging(target) in disk.Current() then disk == old(disk) && SlotOf(disk, target) == Staged(content)
                        else Ready(old(disk), disk, target))
                  case _ => PublishResult(old(disk), disk, target, content, out)
                }
    {
      StagingDiffers(target);
      var staging := Staging(target);
      ghost var start, clean := disk, InProtocol(disk, target);
      var staged := Candidate(disk, staging, |content|, {1}, true);
      if staged == None { return Rejected(OutsideBounds); }
      if staged.value != content {
        out := DropStaging(target, start);
      } else {
        SyncFile(disk.Current()[staging]);
        if clean { assert disk.files == start.files; }
        ghost var now := disk;
        var crashed := MaybeCrash();
        if crashed {
          CrashKeepsValid(now, disk);
          if clean { CrashOfSettled(now, disk); }
        }
        out := if crashed then Crashed else Done;
      }
    }

    /** Publish `content` under `target` without ever replacing what is there. */
    method ExclusiveAtomicWrite(target: Name, content: Bytes) returns (out: Outcome)
      requires disk.Valid()
      modifies this
      ensures disk.Valid()
      ensures out != Crashed ==> TargetKept(old(disk), disk, target)
      ensures out == Done ==> HoldsContent(disk, target, content)
      ensures InProtocol(old(disk), target) ==> PublishResult(old(disk), disk, target, content, out)
    {
      StagingDiffers(target);
      ghost var start, clean := disk, InProtocol(disk, target);
      if content == [] { return Rejected(EmptyContent); }
      if target in disk.Current() {
        out := RequireExisting(target, content);
        return;
      }
      if Staging(target) in disk.Current() {
        out := ReuseStaging(target, content);
        if out != Done { return; }
      }
      ghost var base := start.Current() - {Staging(target)};
      ghost var ino := if Staging(target) in disk.Current() then disk.Current()[Staging(target)] else disk.next;
      if Staging(target) !in disk.Current() {
        assert clean ==> Ready(start, disk, target);
        var crashed := WriteStaging(target, content, start);
        if crashed { return Crashed; }
      } else {
        if clean { StagedUnderWay(start, target, content); }
      }
      var crashed := LinkStaging(target, content, start, base, ino, clean);
      if crashed { return Crashed; }
      crashed := UnlinkStaging(target, content, start, base, ino, clean);
      return if crashed then Crashed else Done;
    }
  }
}
