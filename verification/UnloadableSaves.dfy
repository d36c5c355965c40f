/**
 Journals that are saved and then load no more: a qualification and a completion whose evidence file is not
 the one in the evidence leaf (deploy/scripts/active_edge_reboot_journal.py, `_mutate`, `_complete`).
 */
module UnloadableSaves {
  import opened Options
  import opened JsonValues
  import opened RebootDocuments
  import opened RebootJournal
  import opened RebootSamples

  const SCHEDULED := Timing(1, 1)
  const LOST := Timing(2, 1_000_001)
  const BACK := Timing(3, 2_000_001)

  function Before(n: NodeId): Doc { PreflightDoc(Preflight(n, n.Peer(), Boot(), Null, Peer(), Null, Null)) }
  function Peer(): Json { Object(map[]) }
  function During(): Doc { ValueDoc(Peer()) }

  function Observed(n: NodeId): Doc {
    ObservationDoc(Observation(n, n.Peer(), (Boot(), Null), Peer(), Peer(), Null, Null, SCHEDULED, LOST, BACK))
  }

  function Returned(n: NodeId): Node {
    Node(Reconnected, Some(PreflightFile(n)), Some(Of(Before(n))), Some(Boot()), Some(SCHEDULED), Some(LOST),
         Some(PeerFile(n)), Some(Of(During())), Some(BACK), None)
  }

  function Passed(n: NodeId): Node {
    Returned(n).(phase := Qualified, observationDigest := Some(Of(Observed(n))))
  }

  function Directory(): Files {
    map[PreflightFile(Sbc1) := Stored(Before(Sbc1), true), PeerFile(Sbc1) := Stored(During(), true),
        PreflightFile(Sbc2) := Stored(Before(Sbc2), true), PeerFile(Sbc2) := Stored(During(), true)]
  }

  /** The evidence leaf with both observations, and nothing else. */
  function Observations(): Files {
    map[ObservationFile(Sbc1) := Stored(Observed(Sbc1), true), ObservationFile(Sbc2) := Stored(Observed(Sbc2), true)]
  }

  function JournalOf(root: string, current: Option<NodeId>, sbc1: Node, sbc2: Node): Journal {
    Signed(Journal(First(), root + "/" + First(), InProgress, current, sbc1, sbc2, None, None, None))
  }

  lemma NodesAreValid(n: NodeId, leaf: Files)
    ensures ValidNode(n, Returned(n), Directory(), leaf)
    ensures SecureRead(leaf, ObservationFile(n)) == Some(Observed(n)) ==> ValidNode(n, Passed(n), Directory(), leaf)
  {
    Shapes();
    hide UuidShape, Boot, Observed;
    assert SecureRead(Directory(), PreflightFile(n)) == Some(Before(n)) && SecureRead(Directory(), PeerFile(n)) == Some(During());
    hide Directory;
    assert ValidPreflight(Before(n), n);
    assert ValidArming(n, Returned(n), Directory()) && ValidArming(n, Passed(n), Directory());
    hide ValidArming;
  }

  lemma JournalIsValid(root: string, current: Option<NodeId>, sbc1: Node, sbc2: Node, files: Files, leaf: Files)
    requires ValidNode(Sbc1, sbc1, files, leaf) && ValidNode(Sbc2, sbc2, files, leaf)
    requires var s := JournalOf(root, current, sbc1, sbc2); s.currentNode == FirstUnqualified(s)
    ensures ValidState(JournalOf(root, current, sbc1, sbc2), root, files, leaf)
  {
    Shapes();
    hide ValidNode, RunIdShape, UuidShape;
    var s := JournalOf(root, current, sbc1, sbc2);
    assert s.(stateDigest := None) == Journal(First(), root + "/" + First(), InProgress, current, sbc1, sbc2, None, None, None);
  }

  /** The observation passes every check of the journal, is not in the leaf, and its qualification is saved
      all the same. */
  lemma ForeignObservation(root: string) returns (s: Journal)
    ensures ValidState(s, root, Directory(), map[]) && Serial(s)
    ensures var saved := Mutate(s, Directory(), Sbc1, MarkQualified(Observed(Sbc1)));
      saved.Some? && !ValidState(saved.value, root, Directory(), map[])
  {
    var item := Returned(Sbc1);
    s := JournalOf(root, Some(Sbc1), item, EmptyNode());
    NodesAreValid(Sbc1, map[]);
    JournalIsValid(root, Some(Sbc1), item, EmptyNode(), Directory(), map[]);
    assert SecureRead(Directory(), PreflightFile(Sbc1)) == Some(Before(Sbc1)) && SecureRead(Directory(), PeerFile(Sbc1)) == Some(During());
    Shapes();
    ReflexiveValues();
    hide ValidState, UuidShape, Boot, Same, Directory, Peer;
    assert BoundObservation(Sbc1, item, Directory(), Observed(Sbc1));
    assert Mutate(s, Directory(), Sbc1, MarkQualified(Observed(Sbc1))).Some?;
    hide Mutate, Observed;
    SavedStateLoads(s, root, Directory(), map[], Sbc1, MarkQualified(Observed(Sbc1)));
  }

  lemma ReflexiveValues()
    ensures Equals(Peer(), Peer()) && Equals(Null, Null)
  {
    SameReflexive(Peer());
  }

  /** Both nodes qualified, and an acceptance that is not in the leaf. */
  lemma ForeignAcceptance(root: string) returns (s: Journal)
    ensures ValidState(s, root, Directory(), Observations()) && s.status == InProgress
    ensures var saved := CompleteRun(s, AcceptanceDoc(QUALIFIED_CONCLUSION, Null));
      saved.Some? && !ValidState(saved.value, root, Directory(), Observations())
  {
    s := JournalOf(root, None, Passed(Sbc1), Passed(Sbc2));
    hide Observed;
    assert SecureRead(Observations(), ObservationFile(Sbc1)) == Some(Observed(Sbc1));
    assert SecureRead(Observations(), ObservationFile(Sbc2)) == Some(Observed(Sbc2));
    assert SecureRead(Observations(), AcceptanceFile) == None;
    NodesAreValid(Sbc1, Observations());
    NodesAreValid(Sbc2, Observations());
    hide ValidNode, Directory, Observations;
    JournalIsValid(root, None, Passed(Sbc1), Passed(Sbc2), Directory(), Observations());
    hide ValidState;
    CompletedStateLoads(s, root, Directory(), Observations(), AcceptanceDoc(QUALIFIED_CONCLUSION, Null));
  }
}
