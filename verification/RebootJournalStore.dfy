/**
 The journal directory as the commands change it: publications, removal of the operator's staging
 input, replacement of the state file, and a crash at any of these steps
 (deploy/scripts/active_edge_reboot_journal.py, `_load`, `_save`, `_mutate`, `_complete`).

 Files that are published without replacement are the slots of module ExclusivePublication: `drafts`
 holds the staging files, and a file that still shares its staging link cannot be read.
 */
module RebootJournalStore {
  import opened Options
  import opened JsonValues
  import opened RebootDocuments
  import opened RebootJournal
  import P = ExclusivePublication

  datatype Refusal =
    | NotLoadable | NotCurrent | OutOfOrder | InputAbsent | InputInvalid | OrphanDiffers | Unpublishable(why: P.Reason)

  datatype Result =
    | Done                       // saved, loaded again and returned
    | Refused(reason: Refusal)   // nothing was saved
    | SavedUnloadable            // saved, and then rejected by its own validation
    | Crashed

  function Unpublished(out: P.Outcome): Result {
    match out
    case Rejected(reason) => Refused(Unpublishable(reason))
    case _ => Crashed
  }

  type Bytes = P.Bytes
  type Drafts = map<FileName, Bytes>

  function LoadedFrom(root: string, files: Files, leaf: Files): Option<Journal> {
    var raw := SecureRead(files, StateJson);
    if raw.Some? && raw.value.StateDoc? && ValidState(raw.value.state, root, files, leaf) then Some(raw.value.state) else None
  }

  predicate SameEntry(files: Files, files': Files, n: FileName) {
    (n in files <==> n in files') && (n in files ==> files'[n] == files[n])
  }

  /** Nothing but one name, and perhaps temporary files, has changed. */
  ghost predicate OnlyAt(files: Files, files': Files, name: FileName) {
    forall n | n != name && !n.Temporary? :: SameEntry(files, files', n)
  }

  /** An interrupted save: the old state file or the new one, and perhaps a temporary file. */
  ghost predicate InterruptedSave(files: Files, files': Files, s: Journal) {
    && OnlyAt(files, files', StateJson)
    && (SameEntry(files, files', StateJson) || (StateJson in files' && files'[StateJson] == Stored(StateDoc(s), true)))
    && files.Keys <= files'.Keys
  }

  // ---------------------------------------------------------------- a directory at one moment

  datatype Directory = Directory(
    root: string, encode: Doc -> Bytes, files: Files, drafts: Drafts, leaf: Files, inbox: map<string, Stored>)
  {
    function Loaded(): Option<Journal> { LoadedFrom(root, files, leaf) }

    /** The publication state of one name. */
    function SlotAt(name: FileName): P.Slot {
      if name in files then
        (if name in drafts then P.Slot.Linked(encode(files[name].doc)) else P.Slot.Published(encode(files[name].doc)))
      else if name in drafts then P.Slot.Staged(drafts[name])
      else P.Slot.Empty
    }

    /** A file is readable unless its staging name is still a second link to it. */
    predicate Slotted(name: FileName) {
      name in files ==>
        (if name in drafts then drafts[name] == encode(files[name].doc) && !files[name].secure else files[name].secure)
    }

    /** What a call reads of an operator's input: one bounded, protected file. */
    function ReadInput(source: string): Option<Doc> {
      if source in inbox && inbox[source].secure && Bounded(inbox[source].doc) then Some(inbox[source].doc) else None
    }

    predicate Bounded(doc: Doc) { 0 < |encode(doc)| <= P.MAX_READ }

    /** The publication of a document is new, or was interrupted anywhere. */
    predicate Resumable(name: FileName, doc: Doc) {
      && Slotted(name) && Bounded(doc)
      && (name in files ==> files[name].doc == doc)
      && (name !in files && name in drafts ==> |drafts[name]| <= |encode(doc)|)
    }

    /** The preflight an arming call reads: the input if it is still there, else the published copy, whose
        interrupted link is finished first. */
    function ArmInput(node: NodeId, source: string): Option<Doc> {
      var name := PreflightFile(node);
      if source in inbox then ReadInput(source)
      else if name in files && (files[name].secure || name in drafts) then Some(files[name].doc)
      else None
    }

    /** The journal that a loss report saves, if it gets that far. */
    function LossSaves(node: NodeId, timing: Timing, source: string): Option<Journal> {
      if Loaded() == None || ReadInput(source) == None then None
      else Mutate(Loaded().value, files, node, MarkLoss(timing, ReadInput(source).value))
    }

    /** A published peer observation is the one its durable preflight demands. */
    predicate PeerBound(node: NodeId) {
      PeerFile(node) in files ==>
        && Slotted(PeerFile(node)) && Bounded(files[PeerFile(node)].doc)
        && var preflight := SecureRead(files, PreflightFile(node));
           preflight.Some? && preflight.value.PreflightDoc? && PeerMatches(files[PeerFile(node)].doc, preflight.value.preflight.peer)
    }

    /** Kept by every call on a fresh journal, refused, finished or cut short. */
    predicate Consistent() {
      && (StateJson in files && files[StateJson].doc.StateDoc? ==> Sound(files[StateJson].doc.state))
      && PeerBound(Sbc1) && PeerBound(Sbc2)
    }
  }

  predicate Sound(s: Journal) {
    Invariant(s) && Recorded(s.sbc1) && Recorded(s.sbc2) && Evidenced(s)
  }

  /** A transition of a loaded journal keeps it sound. */
  lemma MutatedSound(s: Journal, root: string, files: Files, leaf: Files, node: NodeId, op: Op)
    requires ValidState(s, root, files, leaf) && Sound(s) && Mutate(s, files, node, op).Some?
    ensures Sound(Mutate(s, files, node, op).value)
  {
    MutateKeeps(s, files, node, op);
    MutateEvidenced(s, root, files, leaf, node, op);
    hide Invariant, Recorded, Evidenced, Mutate, ValidState;
  }

  lemma CompletedSound(s: Journal, doc: Doc)
    requires Sound(s) && CompleteRun(s, doc).Some?
    ensures Sound(CompleteRun(s, doc).value)
  {
    CompleteKeeps(s, doc);
    hide Invariant, Recorded;
  }

  /** An interrupted link may have been finished; nothing else has changed. */
  ghost predicate Tidied(d: Directory, d': Directory, name: FileName) {
    || d' == d
    || (name in d.files && name in d.drafts
        && d' == d.(files := d.files[name := Stored(d.files[name].doc, true)], drafts := d.drafts - {name}))
  }

  // ---------------------------------------------------------------- the commands

  class JournalDirectory {
    const root: string
    const encode: Doc -> Bytes
    var files: Files       // the journal directory
    var drafts: Drafts     // staging files of unfinished publications
    var leaf: Files        // the evidence leaf
    var inbox: map<string, Stored>   // the operator's input files, by path

    function View(): Directory
      reads this
    {
      Directory(root, encode, files, drafts, leaf, inbox)
    }

    /** A journal just initialised. */
    constructor Fresh(root: string, encode: Doc -> Bytes, runId: RunId, leaf: Files, inbox: map<string, Stored>)
      ensures View() == Directory(root, encode, map[StateJson := Stored(StateDoc(NewState(root, runId)), true)], map[], leaf, inbox)
      ensures View().Consistent()
    {
      this.root, this.encode, this.leaf, this.inbox, this.drafts := root, encode, leaf, inbox, map[];
      this.files := map[StateJson := Stored(StateDoc(NewState(root, runId)), true)];
    }

    function Loaded(): Option<Journal>
      reads this
    {
      LoadedFrom(root, files, leaf)
    }

    /** Replace the state file.  The rename is atomic; a crash before it may leave a temporary file,
        torn at any byte. */
    method Save(s: Journal) returns (crashed: bool)
      modifies this`files
      ensures !crashed ==> files == old(files)[StateJson := Stored(StateDoc(Signed(s)), true)]
      ensures crashed ==> InterruptedSave(old(files), files, Signed(s))
    {
      crashed := *;
      if crashed {
        var tag: nat, torn: Stored, before: bool := *, *, *;
        if Temporary(tag) !in files { files := files[Temporary(tag) := torn]; return; }
        if before { return; }
      }
      files := files[StateJson := Stored(StateDoc(Signed(s)), true)];
    }

    /** No-replace publication of one document: one publication step of its slot. */
    method Publish(name: FileName, doc: Doc) returns (out: P.Outcome)
      requires name !in files
      modifies this`files, this`drafts
      ensures P.PublishStep(old(View().SlotAt(name)), encode(doc), out, View().SlotAt(name)) && View().Slotted(name)
      ensures files == if name in files then old(files)[name := Stored(doc, name !in drafts)] else old(files)
      ensures drafts - {name} == old(drafts) - {name}
      ensures out.Rejected? ==> files == old(files) && drafts == old(drafts)
    {
      var content, s := encode(doc), View().SlotAt(name);
      var s': P.Slot := *;
      out := *;
      if !P.PublishStep(s, content, out, s') {
        if P.Admits(s, content) {
          out, s' := P.Outcome.Done, P.Slot.Published(content);
        } else {
          out, s' := P.Outcome.Rejected(P.OutsideBounds), s;
        }
      }
      if out.Rejected? { return; }
      match s' {
        case Empty => drafts := drafts - {name};
        case Staged(raw) => drafts := drafts[name := raw];
        case Linked(raw) => files, drafts := files[name := Stored(doc, false)], drafts[name := raw];
        case Published(raw) => files, drafts := files[name := Stored(doc, true)], drafts - {name};
      }
    }

    /** Finish an interrupted link: one recovery step of the slot. */
    method Normalize(name: FileName) returns (out: P.Outcome)
      modifies this`files, this`drafts
      ensures old(View()).Slotted(name) ==>
                && P.NormalizeStep(old(View()).SlotAt(name), P.MAX_NORMALIZE, out, View().SlotAt(name))
                && View().Slotted(name)
      ensures Tidied(old(View()), View(), name)
      ensures out.Rejected? ==> View() == old(View())
    {
      var crashed: bool, tidied: bool := *, *;
      if name !in files { return P.Outcome.Done; }
      if |encode(files[name].doc)| > P.MAX_NORMALIZE { return P.Outcome.Rejected(P.OutsideBounds); }
      if name in drafts && (!crashed || tidied) {
        if drafts[name] != encode(files[name].doc) { return P.Outcome.Rejected(P.Mismatch); }
        files, drafts := files[name := Stored(files[name].doc, true)], drafts - {name};
      }
      out := if crashed then P.Outcome.Crashed else P.Outcome.Done;
    }

    /** The last step of every transition: save, then load what was saved. */
    method SaveAndLoad(s: Journal) returns (out: Result)
      modifies this`files
      ensures out in {Done, SavedUnloadable, Crashed} && SavedAs(old(files), files, Signed(s), out)
      ensures out != Crashed ==> (out == Done <==> ValidState(Signed(s), root, files, leaf))
    {
      var crashed := Save(s);
      if crashed { return Crashed; }
      return if Loaded() == Some(Signed(s)) then Done else SavedUnloadable;
    }

    // -------------------------------------------------------------- arming

    /** Publish the preflight of a pending node, or accept exactly the one already there. */
    method PlacePreflight(node: NodeId, source: string, raw: Doc, ghost s: Journal) returns (refusal: Option<Result>)
      requires Loaded() == Some(s) && s.NodeOf(node).phase == Pending
      modifies this`files, this`drafts
      ensures Loaded() == Some(s) && (old(View()).Consistent() ==> View().Consistent())
      ensures refusal == None ==> SecureRead(files, PreflightFile(node)) == Some(raw)
      ensures refusal.Some? ==> refusal.value.Refused? || refusal.value == Crashed
      ensures ArmResumable(old(View()), node, source) && old(View()).ArmInput(node, source) == Some(raw) ==>
                if refusal == None then ArmResumable(View(), node, source) && View().ArmInput(node, source) == Some(raw)
                else refusal == Some(Crashed) && ArmOutcome(s, raw, View(), node, source, Crashed)
    {
      hide ArmOutcome, LoadedFrom, Directory.Consistent, P.PublishStep, P.NormalizeStep, ArmResumable, Directory.ArmInput;
      ghost var d := View();
      ghost var ready := ArmResumable(d, node, source) && d.ArmInput(node, source) == Some(raw);
      var destination := PreflightFile(node);
      if destination in files {
        var tidied := Normalize(destination);
        PreflightTidied(s, d, View(), node);
        if ready { TidyingResumes(s, raw, d, View(), node, source, tidied); }
        if tidied != P.Outcome.Done { return Some(Unpublished(tidied)); }
        return if SecureRead(files, destination) == Some(raw) then None else Some(Refused(OrphanDiffers));
      }
      var published := Publish(destination, raw);
      PreflightPublished(s, d, View(), node, raw);
      if ready { PublicationResumes(s, raw, d, View(), node, source, published); }
      return if published == P.Outcome.Done then None else Some(Unpublished(published));
    }

    /** Arm a pending node from a preflight input. */
    method ArmNode(node: NodeId, source: string) returns (out: Result)
      modifies this`files, this`drafts, this`inbox
      ensures !Armable(old(Loaded()), node) || (source in old(inbox) && !Acceptable(old(inbox)[source], encode)) ==>
                out.Refused? && View() == old(View())
      ensures out == Done ==>
                && Armable(old(Loaded()), node) && SecureRead(files, PreflightFile(node)).Some?
                && ValidPreflight(SecureRead(files, PreflightFile(node)).value, node)
                && Loaded() == Mutate(old(Loaded()).value, old(files), node, Arm(SecureRead(files, PreflightFile(node)).value))
      ensures ArmResumable(old(View()), node, source) ==>
                ArmOutcome(old(Loaded()).value, old(View()).ArmInput(node, source).value, View(), node, source, out)
      ensures old(View()).Consistent() ==> View().Consistent()
    {
      hide ValidState, Mutate, DigestState, ArmOutcome, LoadedFrom, Directory.Consistent, P.NormalizeStep, ArmResumable;
      var loaded := Loaded();
      ghost var d0 := View();
      ghost var ready, raw0 := ArmResumable(d0, node, source), d0.ArmInput(node, source);
      if ready { ReadyFacts(d0, node, source); }
      if loaded == None { return Refused(NotLoadable); }
      var s := loaded.value;
      if s.status != InProgress || s.currentNode != Some(node) { return Refused(NotCurrent); }
      if s.NodeOf(node).phase != Pending { return Refused(OutOfOrder); }
      var destination := PreflightFile(node);
      var sourceExists := source in inbox;
      if !sourceExists && destination !in files { return Refused(InputAbsent); }
      if !sourceExists {
        var tidied := Normalize(destination);
        PreflightTidied(s, d0, View(), node);
        if ready { TidyingResumes(s, raw0.value, d0, View(), node, source, tidied); }
        if tidied != P.Outcome.Done { return Unpublished(tidied); }
      }
      var read := View().ArmInput(node, source);
      if read == None { return Refused(InputAbsent); }
      var raw := read.value;
      if !ValidPreflight(raw, node) { return Refused(InputInvalid); }
      var refusal := PlacePreflight(node, source, raw, s);
      if refusal.Some? { return refusal.value; }
      ghost var d2 := View();
      if sourceExists {
        inbox := inbox - {source};
        InboxFrame(d2, View());
        if ready { UnlinkingResumes(s, raw, d2, View(), node, source); }
        var crashed: bool := *;
        if crashed { return Crashed; }
      }
      ghost var d3 := View();
      ArmingAccepted(s, root, files, leaf, node, raw);
      out := SaveAndLoad(Mutate(s, files, node, Arm(raw)).value);
      SavedSound(s, d3, View(), node, Arm(raw), out);
      if out == Done { ArmedIsLoaded(s, d0.files, d3, View(), node, raw); }
      if ready { SavedArming(s, raw, d3, View(), node, source, out); }
    }

    /** The transitions that publish nothing: scheduling, reconnection, qualification, abort. */
    method Transition(node: NodeId, op: Op) returns (out: Result)
      requires !op.Arm? && !op.MarkLoss?
      modifies this`files
      ensures out.Refused? <==> old(Loaded()) == None || Mutate(old(Loaded()).value, old(files), node, op) == None
      ensures out.Refused? ==> files == old(files)
      ensures !out.Refused? ==> SavedAs(old(files), files, Mutate(old(Loaded()).value, old(files), node, op).value, out)
      ensures out == Done ==> Loaded() == Mutate(old(Loaded()).value, old(files), node, op)
      ensures out == SavedUnloadable ==> Loaded() == None
      ensures out == SavedUnloadable && Serial(old(Loaded()).value) ==>
                op.MarkQualified? && SecureRead(leaf, ObservationFile(node)) != Some(op.observation)
      ensures out == Done && op.MarkQualified? ==> SecureRead(leaf, ObservationFile(node)) == Some(op.observation)
      ensures old(View()).Consistent() ==> View().Consistent()
    {
      hide Mutate, ValidState, DigestState, Serial, Directory.Consistent;
      var loaded := Loaded();
      if loaded == None { return Refused(NotLoadable); }
      var s := loaded.value;
      if s.status != InProgress || s.currentNode != Some(node) {
        NotCurrentRefused(s, files, node, op);
        return Refused(NotCurrent);
      }
      var saved := Mutate(s, files, node, op);
      if saved == None { return Refused(OutOfOrder); }
      ghost var d0 := View();
      TransitionSaved(s, root, files, leaf, node, op);
      out := SaveAndLoad(saved.value);
      SavedSound(s, d0, View(), node, op, out);
    }

    /** Record the observed SSH loss together with the peer's state during it. */
    method MarkLossOf(node: NodeId, timing: Timing, source: string) returns (out: Result)
      modifies this`files, this`drafts, this`inbox
      ensures old(View()).Consistent() ==> View().Consistent()
      ensures source !in old(inbox) || !Acceptable(old(inbox)[source], encode) ==> out.Refused? && View() == old(View())
      ensures old(View()).LossSaves(node, timing, source) == None ==>
                out.Refused? && out.reason in {NotLoadable, NotCurrent, InputAbsent, OutOfOrder} && View() == old(View())
      ensures old(View()).Consistent() && old(View()).LossSaves(node, timing, source).Some? ==>
                LossOutcome(old(View()), View(), node, timing, source, out)
    {
      hide Mutate, ValidState, DigestState, LossOutcome, LoadedFrom, Directory.Consistent, P.PublishStep, P.NormalizeStep;
      ghost var d0 := View();
      var loaded := Loaded();
      if loaded == None { return Refused(NotLoadable); }
      var s := loaded.value;
      var read := View().ReadInput(source);
      if s.status != InProgress || s.currentNode != Some(node) {
        if read.Some? { NotCurrentRefused(s, files, node, MarkLoss(timing, read.value)); }
        return Refused(NotCurrent);
      }
      if read == None { return Refused(InputAbsent); }
      var peer := read.value;
      var saved := Mutate(s, files, node, MarkLoss(timing, peer));
      if saved == None { return Refused(OutOfOrder); }
      var destination := PeerFile(node);
      if destination in files {
        var tidied := Normalize(destination);
        if d0.Consistent() { PeerTidied(d0, View(), node, timing, source, tidied); }
        if tidied != P.Outcome.Done { return Unpublished(tidied); }
        if SecureRead(files, destination) != Some(peer) { return Refused(OrphanDiffers); }
      } else {
        var published := Publish(destination, peer);
        if d0.Consistent() { PeerPublished(d0, View(), node, timing, source, published); }
        if published != P.Outcome.Done { return Unpublished(published); }
      }
      ghost var d1 := View();
      inbox := inbox - {source};
      ghost var d2 := View();
      if d0.Consistent() { LossUnlinked(d0, d1, d2, node, timing, source); }
      var crashed: bool := *;
      if crashed { return Crashed; }
      MutatedIsSigned(s, d0.files, node, MarkLoss(timing, peer));
      out := SaveAndLoad(saved.value);
      if d0.Consistent() { LossIsSaved(d0, d2, View(), node, timing, source, out); }
    }

    /** Bind the accepted evidence to the finished run. */
    method CompleteJournal(acceptance: Doc) returns (out: Result)
      modifies this`files
      ensures out.Refused? <==> old(Loaded()) == None || CompleteRun(old(Loaded()).value, acceptance) == None
      ensures out == Done ==> Loaded() == CompleteRun(old(Loaded()).value, acceptance)
      ensures out == SavedUnloadable ==> Loaded() == None
      ensures old(Loaded()).Some? && old(Loaded()).value.status == InProgress && out in {Done, SavedUnloadable} ==>
                (out == Done <==> SecureRead(leaf, AcceptanceFile) == Some(acceptance))
      ensures old(Loaded()).Some? && old(Loaded()).value.status == Complete ==> out == Done && files == old(files)
      ensures old(View()).Consistent() ==> View().Consistent()
    {
      hide Directory.Consistent, ValidState, DigestState, SavedAs;
      var loaded := Loaded();
      if loaded == None { return Refused(NotLoadable); }
      var s := loaded.value;
      ghost var d0 := View();
      if s.status == Complete { return Done; }
      var saved := CompleteRun(s, acceptance);
      if saved == None { return Refused(OutOfOrder); }
      CompletedIsSigned(s, acceptance);
      out := SaveAndLoad(saved.value);
      CompletedOutcome(s, d0, View(), acceptance, out);
    }
  }

  /** The state file itself is not among the files a state is validated against. */
  lemma StateFileFrame(s: Journal, root: string, files: Files, leaf: Files)
    ensures ValidState(s, root, files[StateJson := Stored(StateDoc(s), true)], leaf) <==> ValidState(s, root, files, leaf)
  {
    var files' := files[StateJson := Stored(StateDoc(s), true)];
    hide ValidNode, ValidStatus, RunIdShape, DigestState;
    if ValidState(s, root, files, leaf) {
      ValidNodeFrame(Sbc1, s.sbc1, files, files', leaf);
      ValidNodeFrame(Sbc2, s.sbc2, files, files', leaf);
    }
    if ValidState(s, root, files', leaf) {
      ValidNodeFrame(Sbc1, s.sbc1, files', files, leaf);
      ValidNodeFrame(Sbc2, s.sbc2, files', files, leaf);
    }
  }

  lemma NotCurrentRefused(s: Journal, files: Files, node: NodeId, op: Op)
    requires s.status != InProgress || s.currentNode != Some(node)
    ensures Mutate(s, files, node, op) == None
  {
  }

  /** A saved transition loads again, but for a qualification by an observation that is not in the leaf. */
  lemma TransitionSaved(s: Journal, root: string, files: Files, leaf: Files, node: NodeId, op: Op)
    requires LoadedFrom(root, files, leaf) == Some(s) && Mutate(s, files, node, op).Some?
    requires !op.Arm? && !op.MarkLoss?
    ensures var saved := Mutate(s, files, node, op).value;
            && Signed(saved) == saved
            && (Serial(s) && !op.MarkQualified? ==> ValidState(saved, root, files[StateJson := Stored(StateDoc(saved), true)], leaf))
            && (Serial(s) && op.MarkQualified? && SecureRead(leaf, ObservationFile(node)) == Some(op.observation) ==>
                  ValidState(saved, root, files[StateJson := Stored(StateDoc(saved), true)], leaf))
            && (op.MarkQualified? && ValidState(saved, root, files[StateJson := Stored(StateDoc(saved), true)], leaf) ==>
                  SecureRead(leaf, ObservationFile(node)) == Some(op.observation))
  {
    var saved := Mutate(s, files, node, op).value;
    SavedShape(s, files, node, op);
    assert saved.(stateDigest := Some(DigestState(saved))) == saved;
    StateFileFrame(saved, root, files, leaf);
    if Serial(s) { SavedStateLoads(s, root, files, leaf, node, op); }
    if op.MarkQualified? && ValidState(saved, root, files, leaf) {
      QualifiedIsBound(saved, root, files, leaf, node, op.observation);
    }
  }

  lemma QualifiedIsBound(s: Journal, root: string, files: Files, leaf: Files, node: NodeId, doc: Doc)
    requires ValidState(s, root, files, leaf)
    requires s.NodeOf(node).phase == Qualified && s.NodeOf(node).observationDigest == Some(Of(doc))
    ensures SecureRead(leaf, ObservationFile(node)) == Some(doc)
  {
  }

  // ---------------------------------------------------------------- what every call keeps

  lemma ConsistentFrame(d: Directory, d': Directory)
    requires d.Consistent() && d'.encode == d.encode
    requires SameEntry(d.files, d'.files, StateJson)
          || (StateJson in d'.files && d'.files[StateJson].doc.StateDoc? && Sound(d'.files[StateJson].doc.state))
    requires forall n: NodeId :: SamePeer(d, d', n) || (PeerFile(n) in d'.files && d'.PeerBound(n))
    requires forall n: NodeId ::
               SecureRead(d.files, PreflightFile(n)).Some? ==>
                 SecureRead(d'.files, PreflightFile(n)) == SecureRead(d.files, PreflightFile(n))
    ensures d'.Consistent()
  {
    hide Sound, PeerMatches;
    assert SamePeer(d, d', Sbc1) || d'.PeerBound(Sbc1);
    assert SamePeer(d, d', Sbc2) || d'.PeerBound(Sbc2);
  }

  /** The peer file of a node is as before. */
  predicate SamePeer(d: Directory, d': Directory, n: NodeId) {
    PeerFile(n) in d'.files ==>
      && SameEntry(d.files, d'.files, PeerFile(n)) && (PeerFile(n) in d'.drafts <==> PeerFile(n) in d.drafts)
      && (PeerFile(n) in d.drafts ==> d'.drafts[PeerFile(n)] == d.drafts[PeerFile(n)])
  }

  lemma InboxFrame(d: Directory, d': Directory)
    requires d' == d.(inbox := d'.inbox)
    ensures d.Consistent() ==> d'.Consistent()
  {
    hide Sound, PeerMatches;
  }

  lemma MutatedIsSigned(s: Journal, files: Files, node: NodeId, op: Op)
    requires Mutate(s, files, node, op).Some?
    ensures Signed(Mutate(s, files, node, op).value) == Mutate(s, files, node, op).value
  {
    var saved := Mutate(s, files, node, op).value;
    SavedShape(s, files, node, op);
    assert saved.(stateDigest := Some(DigestState(saved))) == saved;
  }

  /** The outcome of a save, as far as the files are concerned. */
  ghost predicate SavedAs(files: Files, files': Files, saved: Journal, out: Result) {
    if out == Crashed then InterruptedSave(files, files', saved)
    else files' == files[StateJson := Stored(StateDoc(saved), true)]
  }

  lemma SavedFrame(d: Directory, d': Directory, saved: Journal, out: Result)
    requires d.Consistent() && Sound(saved) && SavedAs(d.files, d'.files, saved, out) && d' == d.(files := d'.files)
    ensures d'.Consistent()
  {
    hide Directory.Consistent, Sound;
    forall n: NodeId
      ensures SamePeer(d, d', n) && SecureRead(d'.files, PreflightFile(n)) == SecureRead(d.files, PreflightFile(n))
    {
      assert SameEntry(d.files, d'.files, PeerFile(n)) && SameEntry(d.files, d'.files, PreflightFile(n));
    }
    SavedState(d.files, d'.files, saved, out);
    hide SamePeer, SavedAs;
    ConsistentFrame(d, d');
  }

  lemma SavedState(files: Files, files': Files, saved: Journal, out: Result)
    requires SavedAs(files, files', saved, out)
    ensures SameEntry(files, files', StateJson) || (StateJson in files' && files'[StateJson].doc == StateDoc(saved))
  {
  }

  lemma SavedSound(s: Journal, d: Directory, d': Directory, node: NodeId, op: Op, out: Result)
    requires d.Loaded() == Some(s) && Mutate(s, d.files, node, op).Some? && d' == d.(files := d'.files)
    requires SavedAs(d.files, d'.files, Signed(Mutate(s, d.files, node, op).value), out)
    ensures d.Consistent() ==> d'.Consistent()
  {
    MutatedIsSigned(s, d.files, node, op);
    if d.Consistent() {
      MutatedSound(s, d.root, d.files, d.leaf, node, op);
      var saved := Mutate(s, d.files, node, op).value;
      hide Sound, Mutate, Signed, Directory.Consistent, SavedAs;
      SavedFrame(d, d', saved, out);
    }
  }

  lemma CompletedIsSigned(s: Journal, doc: Doc)
    requires CompleteRun(s, doc).Some? && s.status == InProgress
    ensures Signed(CompleteRun(s, doc).value) == CompleteRun(s, doc).value
  {
    var saved := CompleteRun(s, doc).value;
    assert saved.(stateDigest := Some(DigestState(saved))) == saved;
  }

  lemma CompletedOutcome(s: Journal, d: Directory, d': Directory, doc: Doc, out: Result)
    requires d.Loaded() == Some(s) && s.status == InProgress && CompleteRun(s, doc).Some? && d' == d.(files := d'.files)
    requires SavedAs(d.files, d'.files, CompleteRun(s, doc).value, out)
    requires out != Crashed ==> (out == Done <==> ValidState(CompleteRun(s, doc).value, d.root, d'.files, d.leaf))
    ensures out != Crashed ==> (out == Done <==> SecureRead(d.leaf, AcceptanceFile) == Some(doc))
    ensures out == Done ==> d'.Loaded() == CompleteRun(s, doc)
    ensures out == SavedUnloadable ==> d'.Loaded() == None
    ensures d.Consistent() ==> d'.Consistent()
  {
    var saved := CompleteRun(s, doc).value;
    hide Sound, Directory.Consistent;
    CompletedFrame(s, d, d', doc, out);
    StateFileFrame(saved, d.root, d.files, d.leaf);
    CompletedStateLoads(s, d.root, d.files, d.leaf, doc);
    hide CompleteRun, ValidState;
  }

  lemma CompletedFrame(s: Journal, d: Directory, d': Directory, doc: Doc, out: Result)
    requires d.Loaded() == Some(s) && CompleteRun(s, doc).Some? && d' == d.(files := d'.files)
    requires SavedAs(d.files, d'.files, CompleteRun(s, doc).value, out)
    ensures d.Consistent() ==> d'.Consistent()
  {
    if d.Consistent() {
      assert Sound(s);
      hide Sound, CompleteRun, SavedAs, Directory.Consistent, LoadedFrom;
      CompletedSound(s, doc);
      SavedFrame(d, d', CompleteRun(s, doc).value, out);
    }
  }

  // ---------------------------------------------------------------- arming

  /** An arming of the current pending node that is new, or was interrupted anywhere. */
  ghost predicate ArmResumable(d: Directory, node: NodeId, source: string) {
    var s, raw := d.Loaded(), d.ArmInput(node, source);
    && s.Some? && Serial(s.value) && s.value.status == InProgress && s.value.currentNode == Some(node)
    && s.value.NodeOf(node).phase == Pending
    && raw.Some? && ValidPreflight(raw.value, node)
    && d.Resumable(PreflightFile(node), raw.value)
  }

  /** An input is taken only from a protected file that is not empty and has at most 2 MiB. */
  predicate Acceptable(input: Stored, encode: Doc -> Bytes) {
    input.secure && 1 <= |encode(input.doc)| <= 2 * 1024 * 1024
  }

  /** The node is the current one of a running journal, and has not been armed. */
  predicate Armable(s: Option<Journal>, node: NodeId) {
    s.Some? && s.value.status == InProgress && s.value.currentNode == Some(node) && s.value.NodeOf(node).phase == Pending
  }

  lemma ArmedIsLoaded(s: Journal, files: Files, d: Directory, d': Directory, node: NodeId, raw: Doc)
    requires s.status == InProgress && s.currentNode == Some(node) && s.NodeOf(node).phase == Pending && ValidPreflight(raw, node)
    requires SecureRead(d.files, PreflightFile(node)) == Some(raw) && d' == d.(files := d'.files)
    requires var armed := Mutate(s, d.files, node, Arm(raw));
      && armed.Some? && Signed(armed.value) == armed.value
      && d'.files == d.files[StateJson := Stored(StateDoc(armed.value), true)] && ValidState(armed.value, d.root, d'.files, d.leaf)
    ensures SecureRead(d'.files, PreflightFile(node)) == Some(raw) && d'.Loaded() == Mutate(s, files, node, Arm(raw))
  {
    assert Mutate(s, files, node, Arm(raw)) == Mutate(s, d.files, node, Arm(raw));
    hide ValidState, ValidPreflight, Mutate, Signed;
  }

  lemma ReadyFacts(d: Directory, node: NodeId, source: string)
    requires ArmResumable(d, node, source)
    ensures var s, raw := d.Loaded(), d.ArmInput(node, source);
      && s.Some? && s.value.status == InProgress && s.value.currentNode == Some(node) && s.value.NodeOf(node).phase == Pending
      && raw.Some? && ValidPreflight(raw.value, node) && (source in d.inbox || PreflightFile(node) in d.files)
  {
  }

  /** What an arming of `raw` over the journal `s` comes to: armed with exactly these bytes, or, after
      a crash, resumable with exactly these bytes.  It is never refused. */
  ghost predicate ArmOutcome(s: Journal, raw: Doc, d: Directory, node: NodeId, source: string, out: Result) {
    var armed := Mutate(s, d.files, node, Arm(raw));
    match out
    case Done => d.Loaded() == armed && SecureRead(d.files, PreflightFile(node)) == Some(raw) && source !in d.inbox
    case Crashed =>
      || (d.Loaded() == armed && SecureRead(d.files, PreflightFile(node)) == Some(raw))
      || (d.Loaded() == Some(s) && ArmResumable(d, node, source) && d.ArmInput(node, source) == Some(raw))
    case _ => false
  }

  /** Files a pending node does not refer to may change without harm to the loaded journal. */
  lemma PreflightLoads(s: Journal, root: string, files: Files, files': Files, leaf: Files, node: NodeId)
    requires LoadedFrom(root, files, leaf) == Some(s) && s.NodeOf(node).phase == Pending && OnlyAt(files, files', PreflightFile(node))
    ensures LoadedFrom(root, files', leaf) == Some(s)
  {
    forall n | n != PreflightFile(node) && !n.Temporary? ensures SecureRead(files', n) == SecureRead(files, n) {
      assert SameEntry(files, files', n);
    }
    ValidNodeFrame(Sbc1, s.sbc1, files, files', leaf);
    ValidNodeFrame(Sbc2, s.sbc2, files, files', leaf);
  }

  /** A change to a preflight that could not be read before. */
  lemma PreflightChanged(s: Journal, d: Directory, d': Directory, node: NodeId)
    requires d.Loaded() == Some(s) && s.NodeOf(node).phase == Pending
    requires d' == d.(files := d'.files, drafts := d'.drafts) && OnlyAt(d.files, d'.files, PreflightFile(node))
    requires d'.drafts - {PreflightFile(node)} == d.drafts - {PreflightFile(node)}
    requires SecureRead(d.files, PreflightFile(node)).Some? ==> SameEntry(d.files, d'.files, PreflightFile(node))
    ensures d'.Loaded() == Some(s) && (d.Consistent() ==> d'.Consistent())
  {
    PreflightLoads(s, d.root, d.files, d'.files, d.leaf, node);
    if d.Consistent() {
      forall n: NodeId
        ensures SamePeer(d, d', n)
        ensures SecureRead(d.files, PreflightFile(n)).Some? ==>
                  SecureRead(d'.files, PreflightFile(n)) == SecureRead(d.files, PreflightFile(n))
      {
        assert SameEntry(d.files, d'.files, PeerFile(n));
        assert PeerFile(n) in d'.drafts - {PreflightFile(node)} <==> PeerFile(n) in d.drafts - {PreflightFile(node)};
        if PeerFile(n) in d.drafts {
          assert (d'.drafts - {PreflightFile(node)})[PeerFile(n)] == (d.drafts - {PreflightFile(node)})[PeerFile(n)];
        }
        if n != node { assert SameEntry(d.files, d'.files, PreflightFile(n)); }
      }
      assert SameEntry(d.files, d'.files, StateJson);
      hide Directory.Consistent, SamePeer, Sound;
      ConsistentFrame(d, d');
    }
  }

  lemma PreflightTidied(s: Journal, d: Directory, d': Directory, node: NodeId)
    requires d.Loaded() == Some(s) && s.NodeOf(node).phase == Pending && Tidied(d, d', PreflightFile(node))
    ensures d'.Loaded() == Some(s) && (d.Consistent() ==> d'.Consistent())
  {
    PreflightChanged(s, d, d', node);
  }

  lemma PreflightPublished(s: Journal, d: Directory, d': Directory, node: NodeId, raw: Doc)
    requires d.Loaded() == Some(s) && s.NodeOf(node).phase == Pending && PreflightFile(node) !in d.files
    requires d' == d.(files := d'.files, drafts := d'.drafts)
    requires d'.drafts - {PreflightFile(node)} == d.drafts - {PreflightFile(node)}
    requires d'.files == if PreflightFile(node) in d'.files then d.files[PreflightFile(node) := Stored(raw, PreflightFile(node) !in d'.drafts)]
                         else d.files
    ensures d'.Loaded() == Some(s) && (d.Consistent() ==> d'.Consistent())
  {
    PreflightChanged(s, d, d', node);
  }

  lemma TidyingResumes(s: Journal, raw: Doc, d: Directory, d': Directory, node: NodeId, source: string, out: P.Outcome)
    requires d.Loaded() == Some(s) && d'.Loaded() == Some(s) && PreflightFile(node) in d.files
    requires ArmResumable(d, node, source) && d.ArmInput(node, source) == Some(raw)
    requires d.Slotted(PreflightFile(node)) ==>
               && P.NormalizeStep(d.SlotAt(PreflightFile(node)), P.MAX_NORMALIZE, out, d'.SlotAt(PreflightFile(node)))
               && d'.Slotted(PreflightFile(node))
    requires Tidied(d, d', PreflightFile(node))
    ensures ArmResumable(d', node, source) && d'.ArmInput(node, source) == Some(raw) && !out.Rejected?
    ensures out == P.Outcome.Done ==> SecureRead(d'.files, PreflightFile(node)) == Some(raw)
    ensures out == P.Outcome.Crashed ==> ArmOutcome(s, raw, d', node, source, Crashed)
  {
    hide LoadedFrom, ValidPreflight, Serial, Mutate;
  }

  lemma PublicationResumes(s: Journal, raw: Doc, d: Directory, d': Directory, node: NodeId, source: string, out: P.Outcome)
    requires d.Loaded() == Some(s) && d'.Loaded() == Some(s) && PreflightFile(node) !in d.files
    requires ArmResumable(d, node, source) && d.ArmInput(node, source) == Some(raw)
    requires P.PublishStep(d.SlotAt(PreflightFile(node)), d.encode(raw), out, d'.SlotAt(PreflightFile(node)))
    requires d'.Slotted(PreflightFile(node)) && d' == d.(files := d'.files, drafts := d'.drafts)
    requires d'.files == if PreflightFile(node) in d'.files then d.files[PreflightFile(node) := Stored(raw, PreflightFile(node) !in d'.drafts)]
                         else d.files
    ensures ArmResumable(d', node, source) && d'.ArmInput(node, source) == Some(raw) && !out.Rejected?
    ensures out == P.Outcome.Done ==> SecureRead(d'.files, PreflightFile(node)) == Some(raw)
    ensures out == P.Outcome.Crashed ==> ArmOutcome(s, raw, d', node, source, Crashed)
  {
    hide LoadedFrom, ValidPreflight, Serial, Mutate;
    assert P.Admits(d.SlotAt(PreflightFile(node)), d.encode(raw));
  }

  lemma UnlinkingResumes(s: Journal, raw: Doc, d: Directory, d': Directory, node: NodeId, source: string)
    requires d.Loaded() == Some(s) && ArmResumable(d, node, source) && d.ArmInput(node, source) == Some(raw)
    requires SecureRead(d.files, PreflightFile(node)) == Some(raw) && d' == d.(inbox := d.inbox - {source})
    ensures d'.Loaded() == Some(s) && ArmResumable(d', node, source) && d'.ArmInput(node, source) == Some(raw)
    ensures ArmOutcome(s, raw, d', node, source, Crashed)
  {
    hide LoadedFrom, ValidPreflight, Serial, Mutate;
  }

  lemma ArmingAccepted(s: Journal, root: string, files: Files, leaf: Files, node: NodeId, raw: Doc)
    requires LoadedFrom(root, files, leaf) == Some(s) && s.status == InProgress && s.currentNode == Some(node)
    requires s.NodeOf(node).phase == Pending && ValidPreflight(raw, node)
    ensures Mutate(s, files, node, Arm(raw)).Some?
    ensures var armed := Mutate(s, files, node, Arm(raw)).value;
            Signed(armed) == armed && armed.NodeOf(node).phase == Armed
  {
    SavedShape(s, files, node, Arm(raw));
    var armed := Mutate(s, files, node, Arm(raw)).value;
    assert armed.(stateDigest := Some(DigestState(armed))) == armed;
  }

  /** The save at the end of an arming leaves the armed journal, or, after a crash, perhaps still
      the pending one. */
  lemma SavedArming(s: Journal, raw: Doc, d: Directory, d': Directory, node: NodeId, source: string, out: Result)
    requires d.Loaded() == Some(s) && ArmResumable(d, node, source) && d.ArmInput(node, source) == Some(raw)
    requires SecureRead(d.files, PreflightFile(node)) == Some(raw) && source !in d.inbox
    requires out in {Done, SavedUnloadable, Crashed} && d' == d.(files := d'.files)
    requires var armed := Mutate(s, d.files, node, Arm(raw));
             && armed.Some? && SavedAs(d.files, d'.files, armed.value, out)
             && (out != Crashed ==> (out == Done <==> ValidState(armed.value, d.root, d'.files, d.leaf)))
    ensures ArmOutcome(s, raw, d', node, source, out)
  {
    var armed := Mutate(s, d.files, node, Arm(raw)).value;
    SavedOnlyAt(d.files, d'.files, armed, out);
    ArmedLoads(s, d.root, d.files, d'.files, d.leaf, node, raw);
    ArmedFrame(s, d, d', node, raw);
    hide ValidState, Serial, ValidPreflight, DigestState, Mutate, SavedAs;
    SavedLoads(d, d', s, armed, out);
    hide LoadedFrom;
  }

  lemma ArmedFrame(s: Journal, d: Directory, d': Directory, node: NodeId, raw: Doc)
    requires d.Loaded() == Some(s) && OnlyAt(d.files, d'.files, StateJson)
    ensures ValidState(s, d.root, d'.files, d.leaf) && SecureRead(d.files, StateJson) == Some(StateDoc(s))
    ensures SameEntry(d.files, d'.files, PreflightFile(node))
    ensures Mutate(s, d'.files, node, Arm(raw)) == Mutate(s, d.files, node, Arm(raw))
  {
    forall n: NodeId
      ensures SecureRead(d'.files, PreflightFile(n)) == SecureRead(d.files, PreflightFile(n))
      ensures SecureRead(d'.files, PeerFile(n)) == SecureRead(d.files, PeerFile(n))
    {
      assert SameEntry(d.files, d'.files, PreflightFile(n)) && SameEntry(d.files, d'.files, PeerFile(n));
    }
    StateFrame(s, d.root, d.files, d'.files, d.leaf);
    hide ValidState, OnlyAt;
  }

  lemma ArmedLoads(s: Journal, root: string, files: Files, files': Files, leaf: Files, node: NodeId, raw: Doc)
    requires ValidState(s, root, files, leaf) && Serial(s) && Mutate(s, files, node, Arm(raw)).Some?
    requires PreflightFile(node) in files && files[PreflightFile(node)] == Stored(raw, true)
    requires forall n | n != StateJson && !n.Temporary? :: SameEntry(files, files', n)
    ensures ValidState(Mutate(s, files, node, Arm(raw)).value, root, files', leaf)
  {
    var armed := Mutate(s, files, node, Arm(raw)).value;
    SavedStateLoads(s, root, files, leaf, node, Arm(raw));
    assert Published(files, node, Arm(raw)) == files;
    hide ValidNode, ValidStatus, RunIdShape, DigestState, Mutate, Serial;
    forall n: NodeId ensures SecureRead(files', PreflightFile(n)) == SecureRead(files, PreflightFile(n))
                     ensures SecureRead(files', PeerFile(n)) == SecureRead(files, PeerFile(n))
    {
      assert SameEntry(files, files', PreflightFile(n)) && SameEntry(files, files', PeerFile(n));
    }
    ValidNodeFrame(Sbc1, armed.sbc1, files, files', leaf);
    ValidNodeFrame(Sbc2, armed.sbc2, files, files', leaf);
  }

  // ---------------------------------------------------------------- the loss report

  /** What a loss report comes to whose input passes every check. It is refused only when an earlier,
      interrupted report published other bytes, or left a longer staging file. */
  ghost predicate LossOutcome(d: Directory, d': Directory, node: NodeId, timing: Timing, source: string, out: Result)
    requires d.LossSaves(node, timing, source).Some?
  {
    var saved, peer, name := d.LossSaves(node, timing, source), d.ReadInput(source).value, PeerFile(node);
    && (out != Crashed ==>
          && (out == Refused(OrphanDiffers) <==> name in d.files && d.files[name].doc != peer)
          && (out.Refused? && out.reason.Unpublishable? <==>
                name !in d.files && name in d.drafts && |d.drafts[name]| > |d.encode(peer)|))
    && match out
       case Done => d'.Loaded() == saved && SecureRead(d'.files, name) == Some(peer) && source !in d'.inbox
       case Refused(reason) => Tidied(d, d', name) && (reason == OrphanDiffers || reason.Unpublishable?)
       case SavedUnloadable => false
       case Crashed =>
         && (d'.Loaded() == d.Loaded() || d'.Loaded() == saved)
         && (source !in d'.inbox ==> SecureRead(d'.files, name) == Some(peer))
  }

  /** The two values of an orphan and of a retried report are the same to the journal, so a refusal for
      their bytes needs truth values or floats in them. */
  lemma OrphanIsSame(d: Directory, node: NodeId, timing: Timing, source: string)
    requires d.Consistent() && d.LossSaves(node, timing, source).Some? && PeerFile(node) in d.files
    ensures var orphan, peer := d.files[PeerFile(node)].doc, d.ReadInput(source).value;
      && orphan.ValueDoc? && peer.ValueDoc? && Same(orphan.value, peer.value)
      && (Plain(orphan.value) && Plain(peer.value) ==> orphan == peer)
  {
    var orphan, peer := d.files[PeerFile(node)].doc, d.ReadInput(source).value;
    var expected := SecureRead(d.files, PreflightFile(node)).value.preflight.peer;
    assert Same(orphan.value, expected) && Same(peer.value, expected);
    hide Sound, Mutate, LoadedFrom;
    SameSymmetric(peer.value, expected);
    SameTransitive(orphan.value, expected, peer.value);
    if Plain(orphan.value) && Plain(peer.value) { PlainSameIsEqual(orphan.value, peer.value); }
  }

  lemma LossFacts(d: Directory, node: NodeId, timing: Timing, source: string)
    requires d.Consistent() && d.LossSaves(node, timing, source).Some?
    ensures var s, peer := d.Loaded().value, d.ReadInput(source).value;
      && Sound(s) && Serial(s) && s.NodeOf(node).phase in {Armed, Scheduled} && s.NodeOf(node).lossTiming == None
      && d.Bounded(peer) && SecureRead(d.files, PreflightFile(node)).Some?
      && SecureRead(d.files, PreflightFile(node)).value.PreflightDoc?
      && PeerMatches(peer, SecureRead(d.files, PreflightFile(node)).value.preflight.peer)
  {
    hide ValidState;
  }

  /** The input is published and readable, and nothing else has happened to the journal. */
  ghost predicate Placed(d: Directory, d': Directory, node: NodeId, timing: Timing, source: string)
    requires d.LossSaves(node, timing, source).Some?
  {
    var peer, name := d.ReadInput(source).value, PeerFile(node);
    && d' == d.(files := d'.files, drafts := d'.drafts, inbox := d'.inbox) && OnlyAt(d.files, d'.files, name)
    && SecureRead(d'.files, name) == Some(peer)
    && (name in d.files ==> d.files[name].doc == peer)
    && (name !in d.files && name in d.drafts ==> |d.drafts[name]| <= |d.encode(peer)|)
    && d'.Consistent() && d'.Loaded() == d.Loaded()
  }

  lemma PeerChangeLoads(s: Journal, root: string, files: Files, files': Files, leaf: Files, node: NodeId)
    requires LoadedFrom(root, files, leaf) == Some(s) && s.NodeOf(node).lossTiming == None && OnlyAt(files, files', PeerFile(node))
    ensures LoadedFrom(root, files', leaf) == Some(s)
  {
    forall n | n != PeerFile(node) && !n.Temporary? ensures SecureRead(files', n) == SecureRead(files, n) {
      assert SameEntry(files, files', n);
    }
    ValidNodeFrame(Sbc1, s.sbc1, files, files', leaf);
    ValidNodeFrame(Sbc2, s.sbc2, files, files', leaf);
  }

  /** A change to the peer file that leaves it bound. */
  lemma PeerChanged(d: Directory, d': Directory, node: NodeId, timing: Timing, source: string)
    requires d.Consistent() && d.LossSaves(node, timing, source).Some?
    requires d' == d.(files := d'.files, drafts := d'.drafts) && OnlyAt(d.files, d'.files, PeerFile(node))
    requires d'.drafts - {PeerFile(node)} == d.drafts - {PeerFile(node)} && d'.Slotted(PeerFile(node))
    requires PeerFile(node) in d'.files ==>
               || d'.files[PeerFile(node)].doc == d.ReadInput(source).value
               || (PeerFile(node) in d.files && d'.files[PeerFile(node)].doc == d.files[PeerFile(node)].doc)
    ensures d'.Consistent() && d'.Loaded() == d.Loaded()
  {
    LossFacts(d, node, timing, source);
    PeerChangeLoads(d.Loaded().value, d.root, d.files, d'.files, d.leaf, node);
    assert SameEntry(d.files, d'.files, PreflightFile(node));
    assert PeerFile(node) in d'.files ==> d'.PeerBound(node) by { hide Sound, PeerMatches, Directory.LossSaves, LoadedFrom, OnlyAt; }
    hide Directory.Consistent, Directory.PeerBound, Directory.LossSaves, LoadedFrom, Directory.Slotted;
    forall n: NodeId
      ensures SecureRead(d'.files, PreflightFile(n)) == SecureRead(d.files, PreflightFile(n))
      ensures SamePeer(d, d', n) || (PeerFile(n) in d'.files && d'.PeerBound(n))
    {
      if n != node { PeerUntouched(d, d', node, n); }
    }
    assert SameEntry(d.files, d'.files, StateJson);
    hide SamePeer;
    ConsistentFrame(d, d');
  }

  lemma PeerUntouched(d: Directory, d': Directory, node: NodeId, n: NodeId)
    requires n != node && OnlyAt(d.files, d'.files, PeerFile(node)) && d'.drafts - {PeerFile(node)} == d.drafts - {PeerFile(node)}
    ensures SecureRead(d'.files, PreflightFile(n)) == SecureRead(d.files, PreflightFile(n)) && SamePeer(d, d', n)
  {
    assert SameEntry(d.files, d'.files, PreflightFile(n)) && SameEntry(d.files, d'.files, PeerFile(n));
    assert PeerFile(n) in d'.drafts - {PeerFile(node)} <==> PeerFile(n) in d.drafts - {PeerFile(node)};
    if PeerFile(n) in d.drafts {
      assert (d'.drafts - {PeerFile(node)})[PeerFile(n)] == (d.drafts - {PeerFile(node)})[PeerFile(n)];
    }
  }

  lemma PeerTidied(d: Directory, d': Directory, node: NodeId, timing: Timing, source: string, out: P.Outcome)
    requires d.Consistent() && d.LossSaves(node, timing, source).Some? && PeerFile(node) in d.files
    requires Tidied(d, d', PeerFile(node))
    requires d.Slotted(PeerFile(node)) ==>
               && P.NormalizeStep(d.SlotAt(PeerFile(node)), P.MAX_NORMALIZE, out, d'.SlotAt(PeerFile(node)))
               && d'.Slotted(PeerFile(node))
    ensures d'.Consistent() && !out.Rejected?
    ensures out == P.Outcome.Crashed ==> LossOutcome(d, d', node, timing, source, Crashed)
    ensures out == P.Outcome.Done ==>
              if SecureRead(d'.files, PeerFile(node)) == d.ReadInput(source) then Placed(d, d', node, timing, source)
              else LossOutcome(d, d', node, timing, source, Refused(OrphanDiffers))
  {
    hide Sound, PeerMatches, Mutate, LoadedFrom;
    assert d.Slotted(PeerFile(node));
    PeerChanged(d, d', node, timing, source);
    hide Directory.Consistent;
  }

  lemma PeerPublished(d: Directory, d': Directory, node: NodeId, timing: Timing, source: string, out: P.Outcome)
    requires d.Consistent() && d.LossSaves(node, timing, source).Some? && PeerFile(node) !in d.files
    requires P.PublishStep(d.SlotAt(PeerFile(node)), d.encode(d.ReadInput(source).value), out, d'.SlotAt(PeerFile(node)))
    requires d'.Slotted(PeerFile(node)) && d' == d.(files := d'.files, drafts := d'.drafts)
    requires d'.drafts - {PeerFile(node)} == d.drafts - {PeerFile(node)}
    requires d'.files == if PeerFile(node) in d'.files
                         then d.files[PeerFile(node) := Stored(d.ReadInput(source).value, PeerFile(node) !in d'.drafts)] else d.files
    requires out.Rejected? ==> d' == d
    ensures d'.Consistent()
    ensures out != P.Outcome.Done ==> LossOutcome(d, d', node, timing, source, Unpublished(out))
    ensures out == P.Outcome.Done ==> Placed(d, d', node, timing, source)
  {
    hide Sound, PeerMatches, Mutate, LoadedFrom;
    PeerChanged(d, d', node, timing, source);
    hide Directory.Consistent;
  }

  lemma LossUnlinked(d: Directory, d1: Directory, d2: Directory, node: NodeId, timing: Timing, source: string)
    requires d.LossSaves(node, timing, source).Some? && Placed(d, d1, node, timing, source)
    requires d2 == d1.(inbox := d1.inbox - {source})
    ensures Placed(d, d2, node, timing, source) && LossOutcome(d, d2, node, timing, source, Crashed) && d2.Consistent()
  {
    InboxFrame(d1, d2);
    hide Directory.Consistent, Mutate, LoadedFrom;
  }

  /** Validation reads only the preflight and peer files of the directory. */
  lemma StateFrame(s: Journal, root: string, files: Files, files': Files, leaf: Files)
    requires ValidState(s, root, files, leaf)
    requires forall n: NodeId ::
               && SecureRead(files', PreflightFile(n)) == SecureRead(files, PreflightFile(n))
               && SecureRead(files', PeerFile(n)) == SecureRead(files, PeerFile(n))
    ensures ValidState(s, root, files', leaf)
  {
    hide ValidNode, ValidStatus, RunIdShape, DigestState;
    ValidNodeFrame(Sbc1, s.sbc1, files, files', leaf);
    ValidNodeFrame(Sbc2, s.sbc2, files, files', leaf);
  }

  /** What a placed report's save can be read back as. */
  lemma LossReads(d: Directory, d1: Directory, files: Files, node: NodeId, timing: Timing, source: string, n: NodeId)
    requires d.LossSaves(node, timing, source).Some? && Placed(d, d1, node, timing, source) && OnlyAt(d1.files, files, StateJson)
    ensures var published := d.files[PeerFile(node) := Stored(d.ReadInput(source).value, true)];
      && SecureRead(files, PreflightFile(n)) == SecureRead(published, PreflightFile(n)) == SecureRead(d1.files, PreflightFile(n))
      && SecureRead(files, PeerFile(n)) == SecureRead(published, PeerFile(n)) == SecureRead(d1.files, PeerFile(n))
  {
    hide Directory.Consistent, Directory.Loaded, Directory.LossSaves, Directory.ReadInput;
    assert SameEntry(d.files, d1.files, PreflightFile(n)) && SameEntry(d1.files, files, PreflightFile(n));
    assert SameEntry(d1.files, files, PeerFile(n));
    if n != node { assert SameEntry(d.files, d1.files, PeerFile(n)); }
  }

  lemma LossStates(d: Directory, d1: Directory, files: Files, node: NodeId, timing: Timing, source: string)
    requires d.Consistent() && d.LossSaves(node, timing, source).Some?
    requires Placed(d, d1, node, timing, source) && OnlyAt(d1.files, files, StateJson)
    ensures ValidState(d.LossSaves(node, timing, source).value, d.root, files, d.leaf)
    ensures ValidState(d.Loaded().value, d.root, files, d.leaf)
    ensures Sound(d.LossSaves(node, timing, source).value)
    ensures SecureRead(files, PeerFile(node)) == d.ReadInput(source)
  {
    var s, peer, saved := d.Loaded().value, d.ReadInput(source).value, d.LossSaves(node, timing, source).value;
    var op := MarkLoss(timing, peer);
    LossFacts(d, node, timing, source);
    MutatedSound(s, d.root, d.files, d.leaf, node, op);
    SavedStateLoads(s, d.root, d.files, d.leaf, node, op);
    assert saved == Mutate(s, d.files, node, op).value;
    assert ValidState(s, d.root, d1.files, d.leaf);
    hide ValidState, Mutate, Sound, Directory.Consistent, Serial, DigestState, Directory.LossSaves, Directory.ReadInput;
    forall n: NodeId { LossReads(d, d1, files, node, timing, source, n); }
    hide Placed, LoadedFrom;
    StateFrame(saved, d.root, d.files[PeerFile(node) := Stored(peer, true)], files, d.leaf);
    StateFrame(s, d.root, d1.files, files, d.leaf);
  }

  lemma LossIsSaved(d: Directory, d1: Directory, d2: Directory, node: NodeId, timing: Timing, source: string, out: Result)
    requires d.Consistent() && d.LossSaves(node, timing, source).Some?
    requires Placed(d, d1, node, timing, source) && source !in d1.inbox && d2 == d1.(files := d2.files)
    requires out in {Done, SavedUnloadable, Crashed}
    requires var saved := d.LossSaves(node, timing, source).value;
      && SavedAs(d1.files, d2.files, saved, out) && (out != Crashed ==> (out == Done <==> ValidState(saved, d.root, d2.files, d.leaf)))
    ensures d2.Consistent() && LossOutcome(d, d2, node, timing, source, out)
  {
    hide *;
    var saved := d.LossSaves(node, timing, source).value;
    SavedOnlyAt(d1.files, d2.files, saved, out);
    LossStates(d, d1, d2.files, node, timing, source);
    PlacedFacts(d, d1, node, timing, source);
    SavedFrame(d1, d2, saved, out);
    SavedLoads(d1, d2, d.Loaded().value, saved, out);
    LossEnds(d, d1, d2, node, timing, source, out);
  }

  lemma SavedOnlyAt(files: Files, files': Files, saved: Journal, out: Result)
    requires SavedAs(files, files', saved, out)
    ensures OnlyAt(files, files', StateJson)
  {
  }

  lemma PlacedFacts(d: Directory, d': Directory, node: NodeId, timing: Timing, source: string)
    requires d.LossSaves(node, timing, source).Some? && Placed(d, d', node, timing, source)
    ensures d.Loaded().Some? && d'.Consistent() && d'.root == d.root && d'.leaf == d.leaf
    ensures SecureRead(d'.files, StateJson) == Some(StateDoc(d.Loaded().value))
  {
    hide Directory.Consistent, ValidState, Mutate;
  }

  lemma LossEnds(d: Directory, d1: Directory, d2: Directory, node: NodeId, timing: Timing, source: string, out: Result)
    requires d.LossSaves(node, timing, source).Some? && Placed(d, d1, node, timing, source) && source !in d2.inbox
    requires SecureRead(d2.files, PeerFile(node)) == d.ReadInput(source)
    requires out == Done || out == Crashed
    requires d2.Loaded() == d.LossSaves(node, timing, source) || (out == Crashed && d2.Loaded() == d.Loaded())
    ensures LossOutcome(d, d2, node, timing, source, out)
  {
    hide Directory.LossSaves, Directory.Loaded, Directory.Consistent;
    assert d.ReadInput(source).Some? by { ReadsInput(d, node, timing, source); }
    hide Directory.ReadInput;
  }

  lemma ReadsInput(d: Directory, node: NodeId, timing: Timing, source: string)
    requires d.LossSaves(node, timing, source).Some?
    ensures d.ReadInput(source).Some?
  {
  }

  /** What is loaded after a save: the new state or, if it was cut short, perhaps the old one. */
  lemma SavedLoads(d: Directory, d': Directory, s: Journal, saved: Journal, out: Result)
    requires SecureRead(d.files, StateJson) == Some(StateDoc(s)) && d' == d.(files := d'.files)
    requires SavedAs(d.files, d'.files, saved, out)
    requires ValidState(saved, d.root, d'.files, d.leaf) && ValidState(s, d.root, d'.files, d.leaf)
    ensures d'.Loaded() == Some(saved) || (out == Crashed && d'.Loaded() == Some(s))
  {
    hide ValidState;
  }
}
