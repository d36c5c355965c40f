/**
 The two-node serialized reboot journal: its validation, its transitions, and what every run of
 transitions keeps (deploy/scripts/active_edge_reboot_journal.py, `_validate_state`, `_mutate`,
 `_complete`, `_bounded_interval`).

 JSON documents are already-typed values, one for each canonical text; members that the journal only
 compares are parsed values. A digest is an injective constructor over a document.
 */
module RebootDocuments {

  import opened Options
  import opened JsonValues

  type RunId = string

  datatype NodeId = Sbc1 | Sbc2 {
    function Peer(): NodeId { if this == Sbc1 then Sbc2 else Sbc1 }
  }

  datatype Timing = Timing(epochMs: int, monotonicNs: int)

  datatype Phase = Pending | Armed | Scheduled | SshLost | Reconnected | Qualified | AbortedReconciled

  datatype Status = InProgress | Complete | Aborted

  datatype AbortReason =
    | FailedTransientUnit | RebootDidNotOccur | RebootWithoutObservedLoss | ReadyBoundExpired | ReconnectBoundExpired

  datatype FileName =
    | StateJson
    | PreflightFile(node: NodeId)
    | PeerFile(node: NodeId)
    | ObservationFile(node: NodeId)
    | AcceptanceFile
    | Temporary(tag: nat)
    | Other(name: string)

  datatype Node = Node(
    phase: Phase,
    preflightFile: Option<FileName>,
    preflightDigest: Option<Digest>,
    bootIdBefore: Option<string>,
    scheduleTiming: Option<Timing>,
    lossTiming: Option<Timing>,
    lossPeerFile: Option<FileName>,
    lossPeerDigest: Option<Digest>,
    reconnectTiming: Option<Timing>,
    observationDigest: Option<Digest>)

  datatype Journal = Journal(
    runId: RunId,
    evidenceDirectory: string,
    status: Status,
    currentNode: Option<NodeId>,
    sbc1: Node,
    sbc2: Node,
    abortReason: Option<AbortReason>,
    acceptanceDigest: Option<Digest>,
    stateDigest: Option<Digest>)
  {
    function NodeOf(node: NodeId): Node { if node == Sbc1 then sbc1 else sbc2 }

    function WithNode(node: NodeId, item: Node): Journal {
      if node == Sbc1 then this.(sbc1 := item) else this.(sbc2 := item)
    }
  }

  datatype Preflight = Preflight(
    node: NodeId, peerNode: NodeId, bootId: string, target: Json, peer: Json, targetSources: Json, peerSources: Json)

  datatype Observation = Observation(
    node: NodeId, peerNode: NodeId, targetPre: (string, Json), peerBefore: Json, peerDuring: Json,
    targetSources: Json, peerSources: Json, scheduled: Timing, lost: Timing, reconnected: Timing)

  datatype Transaction = Transaction(
    fromRunId: RunId, fromStateDigest: Digest, newEvidenceDirectory: string, newRunId: RunId,
    newStateDigest: Digest, transactionDigest: Option<Digest>)

  datatype Entry = Entry(path: seq<FileName>, sha256: Digest, size: nat)

  datatype Manifest = Manifest(
    files: seq<Entry>, fromRunId: RunId, fromStateDigest: Digest, manifestDigest: Option<Digest>)

  datatype Receipt = Receipt(
    archiveManifestDigest: Digest, archivedJournalPath: seq<FileName>, fromRunId: RunId, fromStateDigest: Digest,
    newEvidenceDirectory: string, newRunId: RunId, newStateDigest: Digest, transactionDigest: Digest,
    receiptDigest: Option<Digest>)

  datatype Doc =
    | StateDoc(state: Journal)
    | PreflightDoc(preflight: Preflight)
    | ValueDoc(value: Json)
    | ObservationDoc(observation: Observation)
    | AcceptanceDoc(status: string, rest: Json)
    | TransactionDoc(transaction: Transaction)
    | ManifestDoc(manifest: Manifest)
    | ReceiptDoc(receipt: Receipt)
    | RawDoc(text: string)

  /** SHA-256 as an injective constructor over the content it digests. */
  datatype Digest = Of(doc: Doc)

  /** A directory entry: `secure` is the single-link, bounded, protected-file test of every read. */
  datatype Stored = Stored(doc: Doc, secure: bool)
  type Files = map<FileName, Stored>

  function SecureRead(files: Files, name: FileName): Option<Doc> {
    if name in files && files[name].secure then Some(files[name].doc) else None
  }

  function DigestState(s: Journal): Digest {
    Of(StateDoc(s.(stateDigest := None)))
  }

  function Signed(s: Journal): Journal {
    s.(stateDigest := Some(DigestState(s)))
  }
}

module RebootJournal {
  import opened Options
  import opened JsonValues
  import opened RebootDocuments

  const SECOND: int := 1_000_000_000
  const MAX_INT64: int := 0x7fff_ffff_ffff_ffff
  const QUALIFIED_CONCLUSION := "ACTIVE_SYNTHETIC_EDGE_REBOOTS_QUALIFIED"

  // ---------------------------------------------------------------- timing

  predicate ValidTiming(t: Timing) {
    1 <= t.epochMs <= MAX_INT64 && 1 <= t.monotonicNs <= MAX_INT64
  }

  function Abs(x: int): nat { if x < 0 then -x else x }

  predicate BoundedInterval(earlier: Timing, later: Timing, boundNs: int) {
    var monotonic := later.monotonicNs - earlier.monotonicNs;
    var epochNs := (later.epochMs - earlier.epochMs) * 1_000_000;
    0 < monotonic <= boundNs && 0 < epochNs <= boundNs && Abs(epochNs - monotonic) <= 2 * SECOND
  }

  // ---------------------------------------------------------------- shapes

  predicate Digit(c: char) { '0' <= c <= '9' }
  predicate LowerHex(c: char) { Digit(c) || 'a' <= c <= 'f' }

  predicate UuidShape(s: string) {
    && |s| == 36
    && (forall i | 0 <= i < 36 :: if i in {8, 13, 18, 23} then s[i] == '-' else LowerHex(s[i]))
    && '1' <= s[14] <= '5'
    && s[19] in {'8', '9', 'a', 'b'}
  }

  /** Eight digits, `T`, six digits, `Z-`, twelve lower-case hexadecimal digits. */
  predicate RunIdShape(s: string) {
    && |s| == 29
    && (forall i | 0 <= i < 8 :: Digit(s[i]))
    && s[8] == 'T'
    && (forall i | 9 <= i < 15 :: Digit(s[i]))
    && s[15] == 'Z' && s[16] == '-'
    && (forall i | 17 <= i < 29 :: LowerHex(s[i]))
  }

  predicate ValidPreflight(doc: Doc, node: NodeId) {
    && doc.PreflightDoc?
    && doc.preflight.node == node && doc.preflight.peerNode == node.Peer()
    && UuidShape(doc.preflight.bootId)
  }

  // ---------------------------------------------------------------- validation

  predicate Untouched(item: Node) {
    item == EmptyNode()
  }

  function EmptyNode(): Node {
    Node(Pending, None, None, None, None, None, None, None, None, None)
  }

  predicate ValidArming(node: NodeId, item: Node, files: Files) {
    && item.preflightFile == Some(PreflightFile(node))
    && item.preflightDigest.Some?
    && item.bootIdBefore.Some? && UuidShape(item.bootIdBefore.value)
    && var raw := SecureRead(files, PreflightFile(node));
       && raw.Some? && ValidPreflight(raw.value, node)
       && item.preflightDigest == Some(Of(raw.value))
       && item.bootIdBefore == Some(raw.value.preflight.bootId)
  }

  predicate ValidSchedule(item: Node) {
    if item.phase == Armed then item.scheduleTiming == None
    else if item.phase == AbortedReconciled && item.scheduleTiming == None then true
    else item.scheduleTiming.Some? && ValidTiming(item.scheduleTiming.value)
  }

  predicate ValidLoss(node: NodeId, item: Node, files: Files) {
    && (if item.phase in {SshLost, Reconnected, Qualified} then item.lossTiming.Some? && ValidTiming(item.lossTiming.value)
        else if item.phase == AbortedReconciled && item.lossTiming.Some? then ValidTiming(item.lossTiming.value)
        else item.lossTiming == None)
    && (if item.lossTiming.Some? then
          && item.lossPeerFile == Some(PeerFile(node)) && item.lossPeerDigest.Some?
          && SecureRead(files, PeerFile(node)).Some?
          && item.lossPeerDigest == Some(Of(SecureRead(files, PeerFile(node)).value))
        else item.lossPeerFile == None && item.lossPeerDigest == None)
  }

  predicate ValidReconnect(item: Node) {
    if item.phase in {Reconnected, Qualified} then item.reconnectTiming.Some? && ValidTiming(item.reconnectTiming.value)
    else if item.phase == AbortedReconciled && item.reconnectTiming.Some? then
      item.lossTiming.Some? && ValidTiming(item.reconnectTiming.value)
    else item.reconnectTiming == None
  }

  predicate ValidObservation(node: NodeId, item: Node, leaf: Files) {
    if item.phase == Qualified then
      && item.observationDigest.Some?
      && SecureRead(leaf, ObservationFile(node)).Some?
      && item.observationDigest == Some(Of(SecureRead(leaf, ObservationFile(node)).value))
    else item.observationDigest == None
  }

  predicate ValidNode(node: NodeId, item: Node, files: Files, leaf: Files) {
    && (if item.phase == Pending then Untouched(item) else ValidArming(node, item, files) && ValidSchedule(item))
    && ValidLoss(node, item, files)
    && ValidReconnect(item)
    && ValidObservation(node, item, leaf)
  }

  function FirstUnqualified(s: Journal): Option<NodeId> {
    if s.sbc1.phase != Qualified then Some(Sbc1)
    else if s.sbc2.phase != Qualified then Some(Sbc2)
    else None
  }

  predicate ValidStatus(s: Journal, leaf: Files) {
    match s.status
    case InProgress => s.currentNode == FirstUnqualified(s) && s.abortReason == None && s.acceptanceDigest == None
    case Complete =>
      && FirstUnqualified(s) == None && s.currentNode == None && s.abortReason == None && s.acceptanceDigest.Some?
      && SecureRead(leaf, AcceptanceFile).Some?
      && s.acceptanceDigest == Some(Of(SecureRead(leaf, AcceptanceFile).value))
    case Aborted =>
      && s.currentNode.Some? && s.abortReason.Some? && s.acceptanceDigest == None
      && s.NodeOf(s.currentNode.value).phase == AbortedReconciled
  }

  predicate ValidState(s: Journal, root: string, files: Files, leaf: Files) {
    && RunIdShape(s.runId)
    && s.stateDigest == Some(DigestState(s))
    && s.evidenceDirectory == root + "/" + s.runId
    && ValidNode(Sbc1, s.sbc1, files, leaf)
    && ValidNode(Sbc2, s.sbc2, files, leaf)
    && ValidStatus(s, leaf)
  }

  /** The validation as written: one pass over the nodes in order, remembering the first that is
      not qualified. */
  method ValidateState(s: Journal, root: string, files: Files, leaf: Files) returns (ok: bool)
    ensures ok == ValidState(s, root, files, leaf)
  {
    if !RunIdShape(s.runId) || s.stateDigest != Some(DigestState(s)) || s.evidenceDirectory != root + "/" + s.runId {
      return false;
    }
    var order := [Sbc1, Sbc2];
    var firstUnqualified: Option<NodeId> := None;
    for i := 0 to 2
      invariant forall k | 0 <= k < i :: ValidNode(order[k], s.NodeOf(order[k]), files, leaf)
      invariant firstUnqualified == if i >= 1 && s.sbc1.phase != Qualified then Some(Sbc1)
                                    else if i == 2 && s.sbc2.phase != Qualified then Some(Sbc2) else None
    {
      var item := s.NodeOf(order[i]);
      if !ValidNode(order[i], item, files, leaf) {
        assert !ValidNode(Sbc1, s.sbc1, files, leaf) || !ValidNode(Sbc2, s.sbc2, files, leaf);
        return false;
      }
      if firstUnqualified == None && item.phase != Qualified { firstUnqualified := Some(order[i]); }
    }
    assert ValidNode(order[0], s.NodeOf(order[0]), files, leaf) && ValidNode(order[1], s.NodeOf(order[1]), files, leaf);
    assert firstUnqualified == FirstUnqualified(s);
    ok := ValidStatus(s, leaf);
  }

  /** A recorded time is positive and fits 64 bits. */
  predicate Clocked(t: Option<Timing>) {
    t.Some? ==> 0 < t.value.epochMs < 0x8000_0000_0000_0000 && 0 < t.value.monotonicNs < 0x8000_0000_0000_0000
  }

  /** A file of that name passes the protected read, and a digest is that of its content. */
  predicate Backs(digest: Option<Digest>, name: FileName, files: Files) {
    SecureRead(files, name).Some? && digest == Some(Of(SecureRead(files, name).value))
  }

  /** What loading demands of a node, field by field: a pending one has nothing on record; any other rests on its
      durable preflight, and each later entry is there exactly from its phase on. Only an aborted node may have
      stopped anywhere, with a reconnect after a loss, and never with an observation. */
  lemma NodeLoadsExactly(node: NodeId, item: Node, files: Files, leaf: Files)
    ensures ValidNode(node, item, files, leaf) <==>
      if item.phase == Pending then item == Node(Pending, None, None, None, None, None, None, None, None, None)
      else
        && item.preflightFile == Some(PreflightFile(node)) && Backs(item.preflightDigest, PreflightFile(node), files)
        && ValidPreflight(SecureRead(files, PreflightFile(node)).value, node)
        && item.bootIdBefore == Some(SecureRead(files, PreflightFile(node)).value.preflight.bootId)
        && Clocked(item.scheduleTiming) && Clocked(item.lossTiming) && Clocked(item.reconnectTiming)
        && (if item.lossTiming.Some? then item.lossPeerFile == Some(PeerFile(node)) && Backs(item.lossPeerDigest, PeerFile(node), files)
            else item.lossPeerFile == None && item.lossPeerDigest == None)
        && (if item.phase == Qualified then Backs(item.observationDigest, ObservationFile(node), leaf) else item.observationDigest == None)
        && (if item.phase == AbortedReconciled then item.reconnectTiming.Some? ==> item.lossTiming.Some?
            else
              && (item.scheduleTiming.Some? <==> item.phase in {Scheduled, SshLost, Reconnected, Qualified})
              && (item.lossTiming.Some? <==> item.phase in {SshLost, Reconnected, Qualified})
              && (item.reconnectTiming.Some? <==> item.phase in {Reconnected, Qualified}))
  {
    hide UuidShape;
  }

  /** What it demands of the whole: a run id, its directory, its own digest, two such nodes, and of each status its
      own marks. */
  lemma StateLoadsExactly(s: Journal, root: string, files: Files, leaf: Files)
    ensures ValidState(s, root, files, leaf) <==>
      && RunIdShape(s.runId) && s.evidenceDirectory == root + "/" + s.runId && s.stateDigest == Some(DigestState(s))
      && ValidNode(Sbc1, s.sbc1, files, leaf) && ValidNode(Sbc2, s.sbc2, files, leaf)
      && (s.abortReason.Some? <==> s.status == Aborted)
      && (if s.status == Complete then Backs(s.acceptanceDigest, AcceptanceFile, leaf) else s.acceptanceDigest == None)
      && match s.currentNode {
           case None => s.sbc1.phase == Qualified && s.sbc2.phase == Qualified && s.status != Aborted
           case Some(Sbc1) => if s.status == Aborted then s.sbc1.phase == AbortedReconciled else s.status == InProgress && s.sbc1.phase != Qualified
           case Some(Sbc2) =>
             if s.status == Aborted then s.sbc2.phase == AbortedReconciled
             else s.status == InProgress && s.sbc1.phase == Qualified && s.sbc2.phase != Qualified
         }
  {
    hide ValidNode, RunIdShape, DigestState;
  }

  // ---------------------------------------------------------------- transitions

  datatype Op =
    | Arm(preflight: Doc)
    | MarkScheduled(timing: Timing)
    | MarkLoss(timing: Timing, peer: Doc)
    | MarkReconnected(timing: Timing)
    | MarkQualified(observation: Doc)
    | Abort(reason: AbortReason)

  function NewState(root: string, runId: RunId): Journal {
    Signed(Journal(runId, root + "/" + runId, InProgress, Some(Sbc1), EmptyNode(), EmptyNode(), None, None, None))
  }

  /** The acceptance of an observation by the journal: bound to the durable preflight, the durable
      peer observation and the durable timings. */
  predicate BoundObservation(node: NodeId, item: Node, files: Files, doc: Doc) {
    && doc.ObservationDoc?
    && var preflight := SecureRead(files, PreflightFile(node));
       var during := SecureRead(files, PeerFile(node));
       && preflight.Some? && ValidPreflight(preflight.value, node)
       && during.Some? && during.value.ValueDoc? && during.value.value.Object?
       && var p, o := preflight.value.preflight, doc.observation;
          && o.node == node && o.peerNode == p.peerNode
          && o.targetPre.0 == p.bootId && Same(o.targetPre.1, p.target)
          && Equals(o.peerBefore, p.peer) && Equals(o.peerDuring, during.value.value)
          && Equals(o.targetSources, p.targetSources) && Equals(o.peerSources, p.peerSources)
          && ValidTiming(o.scheduled) && item.scheduleTiming == Some(o.scheduled)
          && ValidTiming(o.lost) && item.lossTiming == Some(o.lost)
          && ValidTiming(o.reconnected) && item.reconnectTiming == Some(o.reconnected)
  }

  /** A peer observation taken during the loss is the preflight's, compared as parsed values. */
  predicate PeerMatches(doc: Doc, expected: Json) {
    doc.ValueDoc? && doc.value.Object? && Equals(doc.value, expected)
  }

  function MutateNode(node: NodeId, item: Node, files: Files, op: Op): Option<Node> {
    match op
    case Arm(doc) =>
      if item.phase == Pending && ValidPreflight(doc, node) then
        Some(item.(phase := Armed, bootIdBefore := Some(doc.preflight.bootId),
                   preflightDigest := Some(Of(doc)), preflightFile := Some(PreflightFile(node))))
      else None
    case MarkScheduled(t) =>
      if item.phase == Armed && ValidTiming(t) then Some(item.(scheduleTiming := Some(t), phase := Scheduled))
      else if item.phase == Scheduled then Some(item)
      else None
    case MarkLoss(t, peer) =>
      var preflight := SecureRead(files, PreflightFile(node));
      if && item.phase in {Armed, Scheduled} && ValidTiming(t)
         && item.scheduleTiming.Some? && ValidTiming(item.scheduleTiming.value)
         && BoundedInterval(item.scheduleTiming.value, t, 60 * SECOND)
         && preflight.Some? && ValidPreflight(preflight.value, node)
         && PeerMatches(peer, preflight.value.preflight.peer)
      then Some(item.(lossTiming := Some(t), lossPeerDigest := Some(Of(peer)), lossPeerFile := Some(PeerFile(node)),
                      phase := SshLost))
      else None
    case MarkReconnected(t) =>
      if && item.phase == SshLost && ValidTiming(t)
         && item.scheduleTiming.Some? && ValidTiming(item.scheduleTiming.value)
         && item.lossTiming.Some? && ValidTiming(item.lossTiming.value)
         && BoundedInterval(item.lossTiming.value, t, 300 * SECOND)
         && BoundedInterval(item.scheduleTiming.value, t, 360 * SECOND)
      then Some(item.(reconnectTiming := Some(t), phase := Reconnected))
      else None
    case MarkQualified(doc) =>
      if item.phase == Reconnected && BoundObservation(node, item, files, doc)
      then Some(item.(observationDigest := Some(Of(doc)), phase := Qualified))
      else None
    case Abort(reason) =>
      if item.phase != Pending then Some(item.(phase := AbortedReconciled)) else None
  }

  /** The state a transition saves, or none when it is refused before saving. */
  function Mutate(s: Journal, files: Files, node: NodeId, op: Op): Option<Journal> {
    if s.status != InProgress || s.currentNode != Some(node) then None
    else
      var item := MutateNode(node, s.NodeOf(node), files, op);
      if item == None then None
      else
        var s' := s.WithNode(node, item.value);
        Some(Signed(match op {
          case MarkQualified(_) => s'.(currentNode := if node == Sbc1 then Some(Sbc2) else None)
          case Abort(reason) => s'.(abortReason := Some(reason), status := Aborted)
          case _ => s'
        }))
  }

  /** The state completion saves. */
  function CompleteRun(s: Journal, doc: Doc): Option<Journal> {
    if s.status == Complete then Some(s)
    else if s.status == InProgress && FirstUnqualified(s) == None && doc.AcceptanceDoc? && doc.status == QUALIFIED_CONCLUSION
    then Some(Signed(s.(acceptanceDigest := Some(Of(doc)), currentNode := None, status := Complete)))
    else None
  }

  /** The journal directory after the publications of a transition. */
  function Published(files: Files, node: NodeId, op: Op): Files {
    match op
    case Arm(doc) => files[PreflightFile(node) := Stored(doc, true)]
    case MarkLoss(_, peer) => files[PeerFile(node) := Stored(peer, true)]
    case _ => files
  }

  /** Files at which the two directories agree for the validation of one node. */
  lemma ValidNodeFrame(node: NodeId, item: Node, files: Files, files': Files, leaf: Files)
    requires ValidNode(node, item, files, leaf)
    requires item.phase != Pending ==> SecureRead(files', PreflightFile(node)) == SecureRead(files, PreflightFile(node))
    requires item.lossTiming.Some? ==> SecureRead(files', PeerFile(node)) == SecureRead(files, PeerFile(node))
    ensures ValidNode(node, item, files', leaf)
  {
  }

  /** The second node leaves its initial phase only once the first is qualified. */
  predicate Serial(s: Journal) {
    s.sbc2.phase != Pending ==> s.sbc1.phase == Qualified
  }

  /** The node a transition has changed is valid again, but for a foreign observation. */
  lemma MutatedNodeValid(node: NodeId, item: Node, files: Files, leaf: Files, op: Op)
    requires ValidNode(node, item, files, leaf) && MutateNode(node, item, files, op).Some?
    requires item.phase != Qualified
    ensures ValidNode(node, MutateNode(node, item, files, op).value, Published(files, node, op), leaf)
       <==> (op.MarkQualified? ==> SecureRead(leaf, ObservationFile(node)) == Some(op.observation))
  {
    var item' := MutateNode(node, item, files, op).value;
    match op {
      case Arm(doc) => assert ValidArming(node, item', Published(files, node, op));
      case MarkScheduled(_) =>
      case MarkLoss(_, peer) => assert ValidLoss(node, item', Published(files, node, op));
      case MarkReconnected(_) =>
      case MarkQualified(_) =>
      case Abort(_) =>
    }
  }

  /** Exactly when the saved state can be loaded again: every transition but one always saves an
      acceptable journal; qualification does so if and only if the observation it was given is the
      one in the evidence leaf.  Otherwise the save has already happened and no later call loads. */
  lemma SavedStateLoads(s: Journal, root: string, files: Files, leaf: Files, node: NodeId, op: Op)
    requires ValidState(s, root, files, leaf) && Serial(s)
    requires Mutate(s, files, node, op).Some?
    ensures ValidState(Mutate(s, files, node, op).value, root, Published(files, node, op), leaf)
       <==> (op.MarkQualified? ==> SecureRead(leaf, ObservationFile(node)) == Some(op.observation))
  {
    var s' := Mutate(s, files, node, op).value;
    var files' := Published(files, node, op);
    SavedStatus(s, files, leaf, node, op);
    MutatedNodeValid(node, s.NodeOf(node), files, leaf, op);
    OtherNodeValid(node.Peer(), s.NodeOf(node.Peer()), files, leaf, node, op);
    SavedShape(s, files, node, op);
    hide ValidNode, ValidStatus, Mutate, MutateNode, Published, RunIdShape;
    assert ValidState(s', root, files', leaf) <==> ValidNode(node, s'.NodeOf(node), files', leaf);
  }

  /** What a transition writes besides the node's own entry. */
  lemma SavedShape(s: Journal, files: Files, node: NodeId, op: Op)
    requires Mutate(s, files, node, op).Some?
    ensures var s' := Mutate(s, files, node, op).value;
            && MutateNode(node, s.NodeOf(node), files, op) == Some(s'.NodeOf(node))
            && s'.NodeOf(node.Peer()) == s.NodeOf(node.Peer())
            && s'.runId == s.runId && s'.evidenceDirectory == s.evidenceDirectory
            && s'.stateDigest == Some(DigestState(s'))
  {
    var s' := Mutate(s, files, node, op).value;
    assert s' == Signed(s') by { assert s'.(stateDigest := None).(stateDigest := s'.stateDigest) == s'; }
  }

  lemma OtherNodeValid(other: NodeId, item: Node, files: Files, leaf: Files, node: NodeId, op: Op)
    requires other != node && ValidNode(other, item, files, leaf)
    ensures ValidNode(other, item, Published(files, node, op), leaf)
  {
    ValidNodeFrame(other, item, files, Published(files, node, op), leaf);
  }

  lemma SavedStatus(s: Journal, files: Files, leaf: Files, node: NodeId, op: Op)
    requires ValidStatus(s, leaf) && Serial(s) && Mutate(s, files, node, op).Some?
    ensures ValidStatus(Mutate(s, files, node, op).value, leaf)
  {
  }

  lemma CompletedStateLoads(s: Journal, root: string, files: Files, leaf: Files, doc: Doc)
    requires ValidState(s, root, files, leaf) && s.status == InProgress && CompleteRun(s, doc).Some?
    ensures ValidState(CompleteRun(s, doc).value, root, files, leaf) <==> SecureRead(leaf, AcceptanceFile) == Some(doc)
  {
    var s' := CompleteRun(s, doc).value;
    assert s'.sbc1 == s.sbc1 && s'.sbc2 == s.sbc2;
  }

  // ---------------------------------------------------------------- every run

  /** One call, successful, refused or cut short by a crash: the durable journal is the old one or
      the one the call saves. */
  ghost predicate Step(s: Journal, s': Journal) {
    || s' == s
    || (exists files, node, op :: Mutate(s, files, node, op) == Some(s'))
    || (exists doc :: CompleteRun(s, doc) == Some(s'))
  }

  ghost predicate Run(root: string, run: seq<Journal>) {
    && |run| > 0
    && (exists runId :: run[0] == NewState(root, runId))
    && forall k | 0 <= k < |run| - 1 :: Step(run[k], run[k + 1])
  }

  function Rank(p: Phase): nat {
    match p
    case Pending => 0
    case Armed => 1
    case Scheduled => 2
    case SshLost => 3
    case Reconnected => 4
    case Qualified => 5
    case AbortedReconciled => 6
  }

  /** The timings of one node: recorded in order, each interval within its bound and all three
      sampled from one controller clock origin. */
  predicate TimedNode(item: Node) {
    && (item.phase == Pending ==> Untouched(item))
    && (item.phase == Armed ==> item.scheduleTiming == None)
    && (item.phase in {Pending, Armed, Scheduled} ==> item.lossTiming == None && item.reconnectTiming == None)
    && (item.phase == SshLost ==> item.reconnectTiming == None)
    && (item.phase in {Reconnected, Qualified} ==> item.reconnectTiming.Some?)
    && (item.lossTiming.Some? ==>
          && item.scheduleTiming.Some? && ValidTiming(item.scheduleTiming.value) && ValidTiming(item.lossTiming.value)
          && BoundedInterval(item.scheduleTiming.value, item.lossTiming.value, 60 * SECOND))
    && (item.reconnectTiming.Some? ==>
          && item.lossTiming.Some? && ValidTiming(item.reconnectTiming.value)
          && BoundedInterval(item.lossTiming.value, item.reconnectTiming.value, 300 * SECOND)
          && BoundedInterval(item.scheduleTiming.value, item.reconnectTiming.value, 360 * SECOND))
  }

  predicate Invariant(s: Journal) {
    && Serial(s) && TimedNode(s.sbc1) && TimedNode(s.sbc2)
    && (s.status == InProgress ==> s.currentNode == FirstUnqualified(s))
    && (s.status == Complete ==> FirstUnqualified(s) == None)
  }

  predicate SetOnce<T(==)>(a: Option<T>, b: Option<T>) {
    a.Some? ==> b == a
  }

  /** What one call may do to one node. */
  predicate Advanced(a: Node, b: Node) {
    && Rank(a.phase) <= Rank(b.phase)
    && (a.phase == Qualified ==> b == a)
    && SetOnce(a.preflightDigest, b.preflightDigest) && SetOnce(a.bootIdBefore, b.bootIdBefore)
    && SetOnce(a.scheduleTiming, b.scheduleTiming)
    && SetOnce(a.lossTiming, b.lossTiming) && SetOnce(a.lossPeerDigest, b.lossPeerDigest)
    && SetOnce(a.reconnectTiming, b.reconnectTiming)
    && SetOnce(a.observationDigest, b.observationDigest)
  }

  /** The evidence of a node appears together with the phase that records it. */
  predicate Recorded(item: Node) {
    && (item.phase == Pending ==> Untouched(item))
    && (item.lossTiming == None ==> item.lossPeerDigest == None)
    && (item.phase in {Pending, Armed, Scheduled, SshLost, Reconnected} ==> item.observationDigest == None)
  }

  lemma NodeAdvances(node: NodeId, item: Node, files: Files, op: Op)
    requires TimedNode(item) && Recorded(item) && item.phase != Qualified && MutateNode(node, item, files, op).Some?
    ensures var item' := MutateNode(node, item, files, op).value;
            TimedNode(item') && Recorded(item') && Advanced(item, item')
  {
  }

  lemma MutateKeeps(s: Journal, files: Files, node: NodeId, op: Op)
    requires Invariant(s) && Recorded(s.sbc1) && Recorded(s.sbc2) && Mutate(s, files, node, op).Some?
    ensures var s' := Mutate(s, files, node, op).value;
            && Invariant(s') && Recorded(s'.sbc1) && Recorded(s'.sbc2)
            && Advanced(s.sbc1, s'.sbc1) && Advanced(s.sbc2, s'.sbc2)
  {
    NodeAdvances(node, s.NodeOf(node), files, op);
    SavedShape(s, files, node, op);
    AdvancedReflexive(s.NodeOf(node.Peer()));
    MutatedPhase(node, s.NodeOf(node), files, op);
    hide MutateNode, TimedNode, Recorded, Advanced, RunIdShape, ValidPreflight;
    var s' := Mutate(s, files, node, op).value;
    assert s'.NodeOf(node) == MutateNode(node, s.NodeOf(node), files, op).value;
    assert s'.NodeOf(node.Peer()) == s.NodeOf(node.Peer());
  }

  lemma MutatedPhase(node: NodeId, item: Node, files: Files, op: Op)
    requires MutateNode(node, item, files, op).Some?
    ensures MutateNode(node, item, files, op).value.phase == Qualified <==> op.MarkQualified?
  {
  }

  lemma CompleteKeeps(s: Journal, doc: Doc)
    requires Invariant(s) && CompleteRun(s, doc).Some?
    ensures var s' := CompleteRun(s, doc).value;
            Invariant(s') && s'.sbc1 == s.sbc1 && s'.sbc2 == s.sbc2 && (s.status != InProgress ==> s' == s)
  {
    hide TimedNode;
  }

  lemma StepKeeps(s: Journal, s': Journal)
    requires Invariant(s) && Recorded(s.sbc1) && Recorded(s.sbc2) && Step(s, s')
    ensures Invariant(s') && Recorded(s'.sbc1) && Recorded(s'.sbc2)
    ensures Advanced(s.sbc1, s'.sbc1) && Advanced(s.sbc2, s'.sbc2)
    ensures s.status != InProgress ==> s' == s
  {
    AdvancedReflexive(s.sbc1);
    AdvancedReflexive(s.sbc2);
    hide Invariant, Recorded, Advanced;
    if s' != s {
      if files, node, op :| Mutate(s, files, node, op) == Some(s') {
        MutateKeeps(s, files, node, op);
      } else {
        var doc :| CompleteRun(s, doc) == Some(s');
        CompleteKeeps(s, doc);
      }
    }
  }

  /** Safety of every run: the second node has left its initial phase only if the first is
      qualified, and every recorded timing is inside its bounds. */
  lemma {:induction false} RunIsSafe(root: string, run: seq<Journal>, k: nat)
    requires Run(root, run) && k < |run|
    ensures Invariant(run[k]) && Recorded(run[k].sbc1) && Recorded(run[k].sbc2)
  {
    if k == 0 {
      var runId :| run[0] == NewState(root, runId);
    } else {
      RunIsSafe(root, run, k - 1);
      StepKeeps(run[k - 1], run[k]);
    }
  }

  /** Between any two points of a run phases only advance and recorded evidence never changes:
      timings are set once, a qualified node is final, a finished journal is absorbing. */
  lemma {:induction false} RunAdvances(root: string, run: seq<Journal>, i: nat, j: nat)
    requires Run(root, run) && i <= j < |run|
    ensures Advanced(run[i].sbc1, run[j].sbc1) && Advanced(run[i].sbc2, run[j].sbc2)
    ensures run[i].status != InProgress ==> run[j] == run[i]
    decreases j
  {
    hide Advanced, Step, Invariant, Recorded;
    AdvancedReflexive(run[i].sbc1);
    AdvancedReflexive(run[i].sbc2);
    if i < j {
      RunAdvances(root, run, i, j - 1);
      RunIsSafe(root, run, j - 1);
      StepKeeps(run[j - 1], run[j]);
      AdvancedTransitive(run[i].sbc1, run[j - 1].sbc1, run[j].sbc1);
      AdvancedTransitive(run[i].sbc2, run[j - 1].sbc2, run[j].sbc2);
    }
  }

  lemma AdvancedReflexive(a: Node)
    ensures Advanced(a, a)
  {
  }

  lemma AdvancedTransitive(a: Node, b: Node, c: Node)
    requires Advanced(a, b) && Advanced(b, c)
    ensures Advanced(a, c)
  {
  }

  // ---------------------------------------------------------------- the evidence compiler's clock checks

  /** The part of `_validate_reboot` that speaks of the three journalled moments. */
  predicate EvidenceTiming(scheduled: Timing, lost: Timing, reconnected: Timing) {
    && ValidTiming(scheduled) && ValidTiming(lost) && ValidTiming(reconnected)
    && scheduled.monotonicNs < lost.monotonicNs < reconnected.monotonicNs
    && lost.monotonicNs - scheduled.monotonicNs <= 60 * SECOND
    && reconnected.monotonicNs - lost.monotonicNs <= 300 * SECOND
    && reconnected.monotonicNs - scheduled.monotonicNs <= 360 * SECOND
    && ClockInterval(scheduled, lost, Some(60 * SECOND))
    && ClockInterval(lost, reconnected, Some(300 * SECOND))
    && ClockInterval(scheduled, reconnected, Some(360 * SECOND))
  }

  /** The evidence compiler's own interval test, whose bound is optional. */
  predicate ClockInterval(start: Timing, end: Timing, boundNs: Option<int>) {
    var monotonic := end.monotonicNs - start.monotonicNs;
    var epochNs := (end.epochMs - start.epochMs) * 1_000_000;
    !(|| monotonic <= 0
      || epochNs <= 0
      || (boundNs.Some? && monotonic > boundNs.value)
      || (boundNs.Some? && epochNs > boundNs.value)
      || Abs(epochNs - monotonic) > 2_000_000_000)
  }

  /** Every journal that has recorded a reconnect carries timings the evidence compiler accepts. */
  lemma ReachedTimingIsEvidence(root: string, run: seq<Journal>, k: nat, node: NodeId)
    requires Run(root, run) && k < |run| && run[k].NodeOf(node).reconnectTiming.Some?
    ensures var item := run[k].NodeOf(node);
            && item.scheduleTiming.Some? && item.lossTiming.Some?
            && EvidenceTiming(item.scheduleTiming.value, item.lossTiming.value, item.reconnectTiming.value)
  {
    RunIsSafe(root, run, k);
  }

  /** The third interval is a check of its own: two intervals may each drift by the tolerated two
      seconds and together by four. */
  lemma ThirdIntervalIsIndependent()
    ensures var a, b, c := Timing(1, 1), Timing(12_001, 10 * SECOND + 1), Timing(24_001, 20 * SECOND + 1);
            BoundedInterval(a, b, 60 * SECOND) && BoundedInterval(b, c, 300 * SECOND) && !BoundedInterval(a, c, 360 * SECOND)
  {
    assert Abs(24_000 * 1_000_000 - 20 * SECOND) == 4 * SECOND;
  }

  function ElapsedMilliseconds(from: Timing, to: Timing): int {
    (to.monotonicNs - from.monotonicNs + 999_999) / 1_000_000
  }

  /** The published figures are rounded up, yet stay within a bound of whole seconds exactly when
      the measured interval does. */
  lemma RoundedFigureWithinBound(from: Timing, to: Timing, seconds: nat)
    ensures ElapsedMilliseconds(from, to) <= seconds * 1000 <==> to.monotonicNs - from.monotonicNs <= seconds * SECOND
  {
    var d := to.monotonicNs - from.monotonicNs;
    var q := (d + 999_999) / 1_000_000;
    assert q * 1_000_000 <= d + 999_999 < (q + 1) * 1_000_000;
  }

  // ---------------------------------------------------------------- what an armed and a qualified node rests on

  /** The digests of an armed node name a preflight of this node and its peer, and its boot. */
  predicate RestsOnPreflight(node: NodeId, item: Node) {
    item.phase != Pending ==>
      && item.preflightDigest.Some? && item.preflightDigest.value.doc.PreflightDoc?
      && var p := item.preflightDigest.value.doc.preflight;
         p.node == node && p.peerNode == node.Peer() && item.bootIdBefore == Some(p.bootId)
  }

  /** The digests of a node that was lost name a peer observation that is the preflight's peer. */
  predicate RestsOnPeer(node: NodeId, item: Node) {
    item.lossPeerDigest.Some? ==>
      && item.preflightDigest.Some? && item.preflightDigest.value.doc.PreflightDoc?
      && item.lossPeerDigest.value.doc.ValueDoc? && item.lossPeerDigest.value.doc.value.Object?
      && Equals(item.lossPeerDigest.value.doc.value, item.preflightDigest.value.doc.preflight.peer)
  }

  /** What an observation must say of a node: its own three times, the boot, target, peer and sources of the
      preflight, and the peer that was seen during the loss. */
  predicate Describes(o: Observation, node: NodeId, item: Node, p: Preflight, during: Json) {
    && o.node == node && o.peerNode == node.Peer()
    && item.scheduleTiming == Some(o.scheduled) && item.lossTiming == Some(o.lost) && item.reconnectTiming == Some(o.reconnected)
    && o.targetPre.0 == p.bootId && Same(o.targetPre.1, p.target)
    && Equals(o.peerBefore, p.peer) && Equals(o.peerDuring, during)
    && Equals(o.targetSources, p.targetSources) && Equals(o.peerSources, p.peerSources)
  }

  /** The digests of a qualified node name an observation that describes it. */
  predicate RestsOnObservation(node: NodeId, item: Node) {
    item.phase == Qualified ==>
      && RestsOnPreflight(node, item) && RestsOnPeer(node, item) && item.lossPeerDigest.Some?
      && item.observationDigest.Some? && item.observationDigest.value.doc.ObservationDoc?
      && Describes(item.observationDigest.value.doc.observation, node, item, item.preflightDigest.value.doc.preflight,
                   item.lossPeerDigest.value.doc.value)
  }

  /** A complete journal names an acceptance that concludes the qualification. */
  predicate RestsOnAcceptance(s: Journal) {
    s.status == Complete ==>
      && s.sbc1.phase == Qualified && s.sbc2.phase == Qualified
      && s.acceptanceDigest.Some? && s.acceptanceDigest.value.doc.AcceptanceDoc?
      && s.acceptanceDigest.value.doc.status == "ACTIVE_SYNTHETIC_EDGE_REBOOTS_QUALIFIED"
  }

  predicate Evidenced(s: Journal) {
    && RestsOnAcceptance(s)
    && RestsOnPreflight(Sbc1, s.sbc1) && RestsOnPeer(Sbc1, s.sbc1) && RestsOnObservation(Sbc1, s.sbc1)
    && RestsOnPreflight(Sbc2, s.sbc2) && RestsOnPeer(Sbc2, s.sbc2) && RestsOnObservation(Sbc2, s.sbc2)
  }

  lemma ArmingRests(node: NodeId, item: Node, files: Files, leaf: Files)
    requires ValidNode(node, item, files, leaf) && item.phase != Pending
    ensures RestsOnPreflight(node, item)
    ensures SecureRead(files, PreflightFile(node)).Some? && item.preflightDigest == Some(Of(SecureRead(files, PreflightFile(node)).value))
    ensures item.lossTiming.Some? ==>
              SecureRead(files, PeerFile(node)).Some? && item.lossPeerDigest == Some(Of(SecureRead(files, PeerFile(node)).value))
    ensures item.lossTiming == None ==> item.lossPeerDigest == None
  {
  }

  lemma NodeEvidenced(node: NodeId, item: Node, files: Files, leaf: Files, op: Op)
    requires ValidNode(node, item, files, leaf) && RestsOnPeer(node, item) && RestsOnObservation(node, item)
    requires item.phase != Qualified && TimedNode(item) && MutateNode(node, item, files, op).Some?
    ensures var item' := MutateNode(node, item, files, op).value;
      RestsOnPreflight(node, item') && RestsOnPeer(node, item') && RestsOnObservation(node, item')
  {
    if item.phase != Pending { ArmingRests(node, item, files, leaf); }
    hide ValidNode, UuidShape, Same, ValidTiming, BoundedInterval;
  }

  /** Every transition of a loaded journal keeps it so. */
  lemma MutateEvidenced(s: Journal, root: string, files: Files, leaf: Files, node: NodeId, op: Op)
    requires ValidState(s, root, files, leaf) && Invariant(s) && Evidenced(s) && Mutate(s, files, node, op).Some?
    ensures Evidenced(Mutate(s, files, node, op).value)
  {
    SavedShape(s, files, node, op);
    hide ValidNode, MutateNode, RestsOnPreflight, RestsOnPeer, RestsOnObservation, RunIdShape, TimedNode;
    NodeEvidenced(node, s.NodeOf(node), files, leaf, op);
  }

  /** A run each of whose calls loads the journal first, as every command does. */
  ghost predicate LoadedStep(root: string, s: Journal, s': Journal) {
    || s' == s
    || (exists files, leaf, node, op :: ValidState(s, root, files, leaf) && Mutate(s, files, node, op) == Some(s'))
    || (exists doc :: CompleteRun(s, doc) == Some(s'))
  }

  ghost predicate LoadedRun(root: string, run: seq<Journal>) {
    && |run| > 0
    && (exists runId :: run[0] == NewState(root, runId))
    && forall k | 0 <= k < |run| - 1 :: LoadedStep(root, run[k], run[k + 1])
  }

  lemma LoadedStepKeeps(root: string, s: Journal, s': Journal)
    requires LoadedStep(root, s, s') && Invariant(s) && Recorded(s.sbc1) && Recorded(s.sbc2) && Evidenced(s)
    ensures Step(s, s') && Evidenced(s')
  {
    if s' != s {
      if files, leaf, node, op :| ValidState(s, root, files, leaf) && Mutate(s, files, node, op) == Some(s') {
        hide Invariant, Recorded, Evidenced, ValidState, Mutate;
        MutateEvidenced(s, root, files, leaf, node, op);
      } else {
        var doc :| CompleteRun(s, doc) == Some(s');
        CompleteKeeps(s, doc);
        hide Invariant, Recorded;
      }
    }
  }

  /** In every such run a qualified node's digests name evidence that describes it. */
  lemma {:induction false} QualifiedRestsOnEvidence(root: string, run: seq<Journal>, k: nat)
    requires LoadedRun(root, run) && k < |run|
    ensures Evidenced(run[k]) && Invariant(run[k]) && Recorded(run[k].sbc1) && Recorded(run[k].sbc2)
  {
    if k == 0 {
      var runId :| run[0] == NewState(root, runId);
    } else {
      QualifiedRestsOnEvidence(root, run, k - 1);
      hide Invariant, Recorded, Evidenced, LoadedStep, Step;
      assert LoadedStep(root, run[k - 1], run[k]);
      LoadedStepKeeps(root, run[k - 1], run[k]);
      StepKeeps(run[k - 1], run[k]);
    }
  }

  /** A running journal is completed exactly with such an acceptance, once both nodes are qualified. */
  lemma CompletionExactly(s: Journal, doc: Doc)
    requires s.status == InProgress
    ensures CompleteRun(s, doc).Some? <==>
      && s.sbc1.phase == Qualified && s.sbc2.phase == Qualified
      && doc.AcceptanceDoc? && doc.status == "ACTIVE_SYNTHETIC_EDGE_REBOOTS_QUALIFIED"
    ensures CompleteRun(s, doc).Some? ==> RestsOnAcceptance(CompleteRun(s, doc).value) && CompleteRun(s, doc).value.status == Complete
  {
  }

  /** From a reconnected node of a loaded journal, an observation is accepted exactly when it describes the node
      by its durable preflight and the durable peer observation. */
  lemma QualificationExactly(s: Journal, root: string, files: Files, leaf: Files, node: NodeId, doc: Doc)
    requires ValidState(s, root, files, leaf) && s.status == InProgress && s.currentNode == Some(node)
    requires s.NodeOf(node).phase == Reconnected
    ensures SecureRead(files, PreflightFile(node)).Some? && SecureRead(files, PreflightFile(node)).value.PreflightDoc?
    ensures SecureRead(files, PeerFile(node)).Some?
    ensures Mutate(s, files, node, MarkQualified(doc)).Some? <==>
      && doc.ObservationDoc?
      && SecureRead(files, PeerFile(node)).value.ValueDoc? && SecureRead(files, PeerFile(node)).value.value.Object?
      && Describes(doc.observation, node, s.NodeOf(node), SecureRead(files, PreflightFile(node)).value.preflight,
                   SecureRead(files, PeerFile(node)).value.value)
  {
    var item := s.NodeOf(node);
    assert ValidNode(node, item, files, leaf);
    ArmingRests(node, item, files, leaf);
    assert item.scheduleTiming.Some? && ValidTiming(item.scheduleTiming.value);
    assert item.lossTiming.Some? && ValidTiming(item.lossTiming.value);
    assert item.reconnectTiming.Some? && ValidTiming(item.reconnectTiming.value);
    assert ValidPreflight(SecureRead(files, PreflightFile(node)).value, node);
    hide ValidNode, ValidTiming, UuidShape, RunIdShape, Same, DigestState;
  }
}
