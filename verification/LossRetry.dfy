/**
 A loss report that cannot be repeated: the journal compares the peer's state by value, its published copy
 byte by byte (deploy/scripts/active_edge_reboot_journal.py, `_mutate`).
 */
module LossRetry {
  import opened Options
  import opened JsonValues
  import opened RebootDocuments
  import opened RebootJournal
  import opened RebootJournalStore
  import opened RebootSamples
  import P = ExclusivePublication

  function WholeOne(): Json { Object(map["x" := Int(1)]) }
  function FloatOne(): Json { Object(map["x" := Float(Finite(1.0))]) }

  function Before(): Doc {
    PreflightDoc(Preflight(Sbc1, Sbc2, Boot(), Null, WholeOne(), Null, Null))
  }

  const SCHEDULED := Timing(1, 1)
  const LOST := Timing(2, 1_000_001)

  function Preflights(): Files { map[PreflightFile(Sbc1) := Stored(Before(), true)] }

  lemma Comparable()
    ensures Equals(FloatOne(), WholeOne()) && Equals(WholeOne(), WholeOne()) && FloatOne() != WholeOne()
  {
    assert FloatOne().members["x"] != WholeOne().members["x"];
  }

  /** The first node armed and scheduled. */
  lemma Scheduling(root: string) returns (armed: Journal, s: Journal)
    ensures Mutate(NewState(root, First()), map[], Sbc1, Arm(Before())) == Some(armed)
    ensures Mutate(armed, Preflights(), Sbc1, MarkScheduled(SCHEDULED)) == Some(s)
    ensures ValidState(s, root, Preflights(), map[]) && s.status == InProgress && s.currentNode == Some(Sbc1)
    ensures s.sbc1.phase == Scheduled && s.sbc1.scheduleTiming == Some(SCHEDULED) && Sound(s)
  {
    Shapes();
    var s0 := NewState(root, First());
    assert s0.(stateDigest := None) == Journal(First(), root + "/" + First(), InProgress, Some(Sbc1), EmptyNode(), EmptyNode(), None, None, None);
    hide RunIdShape, UuidShape;
    assert ValidState(s0, root, map[], map[]);
    assert Sound(s0);
    armed := Mutate(s0, map[], Sbc1, Arm(Before())).value;
    SavedStateLoads(s0, root, map[], map[], Sbc1, Arm(Before()));
    MutatedSound(s0, root, map[], map[], Sbc1, Arm(Before()));
    assert Published(map[], Sbc1, Arm(Before())) == Preflights();
    hide ValidState, Sound;
    s := Mutate(armed, Preflights(), Sbc1, MarkScheduled(SCHEDULED)).value;
    SavedStateLoads(armed, root, Preflights(), map[], Sbc1, MarkScheduled(SCHEDULED));
    MutatedSound(armed, root, Preflights(), map[], Sbc1, MarkScheduled(SCHEDULED));
  }

  /** The directory in which the peer is observed, with the operator's input file. */
  function Observing(root: string, encode: Doc -> Bytes, s: Journal, peer: Json): Directory {
    Directory(root, encode, Preflights()[StateJson := Stored(StateDoc(s), true)], map[], map[], map["peer" := Stored(ValueDoc(peer), true)])
  }

  lemma ReportAccepted(root: string, encode: Doc -> Bytes, s: Journal, d: Directory, peer: Json)
    requires forall doc: Doc :: 0 < |encode(doc)| <= P.MAX_READ
    requires ValidState(s, root, Preflights(), map[]) && s.status == InProgress && s.currentNode == Some(Sbc1)
    requires s.sbc1.phase == Scheduled && s.sbc1.scheduleTiming == Some(SCHEDULED) && Sound(s)
    requires d.Loaded() == Some(s) && d.encode == encode && "peer" in d.inbox && d.inbox["peer"] == Stored(ValueDoc(peer), true)
    requires SecureRead(d.files, PreflightFile(Sbc1)) == Some(Before()) && peer.Object? && Equals(peer, WholeOne())
    ensures d.LossSaves(Sbc1, LOST, "peer").Some? && d.ReadInput("peer") == Some(ValueDoc(peer))
  {
    Shapes();
    hide ValidState, UuidShape, Sound, Boot, WholeOne, Equals;
    assert ValidPreflight(Before(), Sbc1);
    assert BoundedInterval(SCHEDULED, LOST, 60 * SECOND);
    assert MutateNode(Sbc1, s.sbc1, d.files, MarkLoss(LOST, ValueDoc(peer))).Some?;
  }

  lemma ObservingLoads(root: string, encode: Doc -> Bytes, s: Journal, peer: Json)
    requires ValidState(s, root, Preflights(), map[]) && Sound(s)
    ensures var d := Observing(root, encode, s, peer);
      d.Loaded() == Some(s) && d.Consistent() && SecureRead(d.files, PreflightFile(Sbc1)) == Some(Before())
  {
    var d := Observing(root, encode, s, peer);
    StateFrame(s, root, Preflights(), d.files, map[]);
    hide ValidState, Sound;
  }

  /** The directory after the publication of the spelling 1.0, with the other spelling as input. */
  function Retrying(root: string, encode: Doc -> Bytes, s: Journal, input: Json): Directory {
    Observing(root, encode, s, input).(files := Observing(root, encode, s, input).files[PeerFile(Sbc1) := Stored(ValueDoc(FloatOne()), true)])
  }

  lemma RetryingLoads(root: string, encode: Doc -> Bytes, s: Journal, input: Json)
    requires forall doc: Doc :: 0 < |encode(doc)| <= P.MAX_READ
    requires ValidState(s, root, Preflights(), map[]) && s.sbc1.phase == Scheduled && Sound(s)
    ensures var d := Retrying(root, encode, s, input);
      d.Loaded() == Some(s) && d.Consistent() && SecureRead(d.files, PreflightFile(Sbc1)) == Some(Before())
  {
    var d0, d := Observing(root, encode, s, input), Retrying(root, encode, s, input);
    ObservingLoads(root, encode, s, input);
    PeerChangeLoads(s, root, d0.files, d.files, map[], Sbc1);
    Comparable();
    hide ValidState, Sound, Equals, LoadedFrom;
    assert SecureRead(d.files, PreflightFile(Sbc1)) == Some(Before());
    assert d.PeerBound(Sbc1);
  }

  /** Reported as 1.0 and cut short between publication and save, the peer's state cannot be reported as the 1
      of the preflight: both reports are acceptable, and the second is refused for its bytes. */
  lemma SpellingRefused(root: string, encode: Doc -> Bytes) returns (d: Directory, c: Directory, r: Directory)
    requires forall doc: Doc :: 0 < |encode(doc)| <= P.MAX_READ
    ensures d.Consistent() && d.LossSaves(Sbc1, LOST, "peer").Some? && d.ReadInput("peer") == Some(ValueDoc(FloatOne()))
    ensures c == d.(files := d.files[PeerFile(Sbc1) := Stored(ValueDoc(FloatOne()), true)])
    ensures P.PublishStep(d.SlotAt(PeerFile(Sbc1)), encode(ValueDoc(FloatOne())), P.Outcome.Crashed, c.SlotAt(PeerFile(Sbc1)))
    ensures c.Loaded() == d.Loaded()
    ensures r == c.(inbox := r.inbox) && r.ReadInput("peer") == Some(ValueDoc(WholeOne()))
    ensures r.Consistent() && r.LossSaves(Sbc1, LOST, "peer").Some?
    ensures forall end, out | LossOutcome(r, end, Sbc1, LOST, "peer", out) :: out == Crashed || out == Refused(OrphanDiffers)
  {
    Comparable();
    var armed, s := Scheduling(root);
    d, c, r := Observing(root, encode, s, FloatOne()), Retrying(root, encode, s, FloatOne()), Retrying(root, encode, s, WholeOne());
    hide Sound, ValidState, Equals, LoadedFrom, Directory.LossSaves, Directory.Loaded, Directory.Consistent, Before, NewState, Mutate,
         SecureRead;
    ObservingLoads(root, encode, s, FloatOne());
    RetryingLoads(root, encode, s, FloatOne());
    RetryingLoads(root, encode, s, WholeOne());
    ReportAccepted(root, encode, s, d, FloatOne());
    ReportAccepted(root, encode, s, r, WholeOne());
    hide Directory.ReadInput;
    assert r.files[PeerFile(Sbc1)].doc != r.ReadInput("peer").value;
  }
}
