/**
 A rollover that cannot finish: the evidence leaf of the given-up journal holds one file that is larger
 than the archive inventory accepts (deploy/scripts/active_edge_reboot_journal.py, `_rollover`,
 `_archive_file_inventory`).
 */
module RolloverOversized {
  import opened Options
  import opened JsonValues
  import opened RebootDocuments
  import opened RebootJournal
  import opened ArchiveInventory
  import opened Rollover
  import opened RebootSamples
  import P = ExclusivePublication

  function Char(b: P.Byte): char { b as char }
  function Code(c: char): P.Byte { if c as int < 256 then c as int else 0 }
  function Chars(raw: Bytes): string { seq(|raw|, i requires 0 <= i < |raw| => Char(raw[i])) }
  function Codes(text: string): Bytes { seq(|text|, i requires 0 <= i < |text| => Code(text[i])) }

  lemma CodesInvert(r: RunId)
    requires RunIdShape(r)
    ensures Chars(Codes(r)) == r && |Codes(r)| == 29
  {
  }

  function Zeros(n: nat): Bytes { seq(n, (i: nat) => 0) }

  /** A text of every document by kind and run: enough for one rollover. */
  function ShortText(d: Doc): Bytes {
    match d
    case StateDoc(s) => [1] + Codes(s.runId)
    case TransactionDoc(t) => [2] + Codes(t.newRunId)
    case ReceiptDoc(r) => [3] + Codes(r.newRunId)
    case ManifestDoc(_) => [4]
    case RawDoc(text) => Zeros(|text| + 1)
    case _ => [0]
  }

  function ReadShort(root: string, terminal: Journal, sealed: Manifest, raw: Bytes): Doc
    requires sealed.manifestDigest.Some?
  {
    if raw == [] then RawDoc("")
    else if raw[0] == 1 then StateDoc(NewState(root, Chars(raw[1..])))
    else if raw[0] == 2 then TransactionDoc(TransactionFor(root, terminal, Chars(raw[1..])))
    else if raw[0] == 3 then ReceiptDoc(ReceiptFor(TransactionFor(root, terminal, Chars(raw[1..])), sealed))
    else ManifestDoc(sealed)
  }

  function ShortCodec(root: string, terminal: Journal, sealed: Manifest): Codec
    requires sealed.manifestDigest.Some?
  {
    Codec(ShortText, (raw: Bytes) => ReadShort(root, terminal, sealed, raw))
  }

  function Before(): Doc { PreflightDoc(RebootDocuments.Preflight(Sbc1, Sbc2, Boot(), Null, Null, Null, Null)) }

  function GivenUpNode(): Node {
    EmptyNode().(phase := AbortedReconciled, preflightFile := Some(PreflightFile(Sbc1)),
                 preflightDigest := Some(Of(Before())), bootIdBefore := Some(Boot()))
  }

  /** The first node armed and then given up. */
  function GivenUp(root: string): Journal {
    Signed(Journal(First(), root + "/" + First(), Aborted, Some(Sbc1), GivenUpNode(), EmptyNode(), Some(FailedTransientUnit), None, None))
  }

  function GivenUpDirectory(root: string): Entries {
    Cons(PreflightFile(Sbc1), FileNode(Stored(Before(), true)), Cons(StateJson, FileNode(Stored(StateDoc(GivenUp(root)), true)), Nil))
  }

  lemma GivenUpIsValid(root: string, leaf: Files)
    ensures var files := FilesOf(GivenUpDirectory(root));
      ValidState(GivenUp(root), root, files, leaf) && SecureRead(files, StateJson) == Some(StateDoc(GivenUp(root)))
  {
    var s, files := GivenUp(root), FilesOf(GivenUpDirectory(root));
    Shapes();
    hide RunIdShape, UuidShape;
    var last := Cons(StateJson, FileNode(Stored(StateDoc(s), true)), Nil);
    assert FilesOf(Nil) == map[];
    assert FilesOf(last) == map[StateJson := Stored(StateDoc(s), true)];
    assert files == map[StateJson := Stored(StateDoc(s), true), PreflightFile(Sbc1) := Stored(Before(), true)];
    assert ValidArming(Sbc1, GivenUpNode(), files);
    assert ValidNode(Sbc1, GivenUpNode(), files, leaf) && ValidNode(Sbc2, EmptyNode(), files, leaf);
    hide ValidNode, ValidArming;
    assert s.(stateDigest := None) == Journal(First(), root + "/" + First(), Aborted, Some(Sbc1), GivenUpNode(), EmptyNode(), Some(FailedTransientUnit), None, None);
  }

  /** An evidence leaf with one file of more than 16 MiB. */
  function BigLeaf(): Entries {
    Cons(Other("capture"), FileNode(Stored(RawDoc(seq(MAX_FILE, _ => '0')), true)), Nil)
  }

  function Always(): FileName -> bool { (name: FileName) => true }

  function Listing(root: string): seq<Entry> {
    Listed(Flatten(WithJournal(BigLeaf(), GivenUpDirectory(root), Always()), []), d => |ShortText(d)|)
  }

  function Start(root: string): World {
    World(P.Slot.Empty, Some(GivenUpDirectory(root)), map[], map[First() := Leaf(BigLeaf(), None, P.Slot.Empty, P.Slot.Empty)])
  }

  function Sealing(root: string): (m: Manifest)
    ensures m.manifestDigest.Some?
  {
    ManifestFor(Listing(root), First(), DigestState(GivenUp(root)))
  }

  function Over(root: string): Context {
    Context(root, ShortCodec(root, GivenUp(root), Sealing(root)), Always(), Start(root), GivenUp(root), GivenUpDirectory(root), BigLeaf())
  }

  lemma SealedIsListing(root: string)
    ensures Over(root).Sealed() == Sealing(root)
  {
    var found := Flatten(WithJournal(BigLeaf(), GivenUpDirectory(root), Always()), []);
    assert Listed(found, Over(root).codec.SizeOf()) == Listing(root);
  }

  lemma OverIsBig(root: string)
    ensures !Over(root).Sized()
  {
    var k := Over(root);
    var found := Flatten(k.Archive(), []);
    assert found[0].stored.doc == RawDoc(seq(MAX_FILE, _ => '0'));
    assert k.codec.SizeOf()(found[0].stored.doc) == MAX_FILE + 1;
  }

  lemma Carried(root: string, sealed: Manifest, r: RunId)
    requires sealed.manifestDigest.Some? && RunIdShape(r)
    ensures var c := ShortCodec(root, GivenUp(root), sealed);
      var t := TransactionFor(root, GivenUp(root), r);
      && c.Keeps(StateDoc(NewState(root, r))) && c.Keeps(TransactionDoc(t)) && c.Keeps(ReceiptDoc(ReceiptFor(t, sealed)))
      && |c.encode(TransactionDoc(t))| == |c.encode(ReceiptDoc(ReceiptFor(t, sealed)))| == 30
  {
    CodesInvert(r);
    hide GivenUp, DigestState, RunIdShape;
    assert ([1] + Codes(r))[1..] == Codes(r) && ([2] + Codes(r))[1..] == Codes(r) && ([3] + Codes(r))[1..] == Codes(r);
  }

  lemma CodecServes(root: string, r: RunId)
    requires RunIdShape(r)
    ensures var k := Over(root);
      && k.codec.Keeps(k.FreshDoc(r)) && k.codec.Keeps(k.TxDoc(r)) && k.codec.Keeps(k.Slip(r))
      && |k.codec.encode(k.TxDoc(r))| == |k.codec.encode(k.Slip(r))| == 30
  {
    SealedIsListing(root);
    Carried(root, Sealing(root), r);
    hide GivenUp, Sealing, RunIdShape, ShortCodec, TransactionFor, NewState, Codec.Keeps, Listing;
  }

  lemma ManifestKept(root: string)
    ensures var k := Over(root);
      k.codec.Keeps(ManifestDoc(k.Sealed())) && |k.codec.encode(ManifestDoc(k.Sealed()))| == 1
  {
    SealedIsListing(root);
    hide GivenUp, Sealing, Listing;
  }

  lemma StartLoads(root: string)
    ensures var k := Over(root);
      Load(k.root, k.start, k.journal) == Some(k.terminal) && k.terminal.status == Aborted && k.terminal.runId == First()
  {
    GivenUpIsValid(root, FilesOf(BigLeaf()));
    hide ValidState, FilesOf, DigestState;
  }

  /** The context is clean, though the archive breaks the bounds. */
  lemma OverIsClean(root: string)
    ensures Clean(Over(root)) && !Over(root).Sized()
  {
    var k := Over(root);
    OverIsBig(root);
    StartLoads(root);
    ManifestKept(root);
    hide RunIdShape, Load, Codec.Keeps, GivenUp, Sealing, ShortCodec, TransactionFor, NewState, DigestState, WithJournal, Flatten;
    forall r | Allocatable(k, r)
      ensures k.codec.Keeps(k.FreshDoc(r)) && k.codec.Keeps(k.TxDoc(r)) && k.codec.Keeps(k.Slip(r))
      ensures |k.codec.encode(k.TxDoc(r))| == |k.codec.encode(k.Slip(r))| == 30
    {
      CodecServes(root, r);
    }
  }

  lemma UnsealedOver(root: string, r: RunId, w: World)
    requires Unsealed(Over(root), r, w)
    ensures w.active == None && First() in w.leaves && w.leaves[First()].journal == Some(GivenUpDirectory(root))
  {
    StartLoads(root);
    hide Load, Clean, RunIdShape, GivenUp, GivenUpDirectory, Context.Sized, NewState, TransactionFor;
  }

  lemma StartIsStarted(root: string)
    ensures Started(Over(root), Over(root).start) && !Over(root).Sized()
    ensures Names(Over(root), Over(root).terminal.runId, DigestState(Over(root).terminal))
  {
    OverIsClean(root);
    CleanIsStarted(Over(root));
  }

  /** Rolling it over: unless cut short or without a run id, the command is refused with the journal already
      archived and none active. */
  method RollOverOversized(root: string) returns (out: Outcome, w: World)
    ensures out == Crashed
         || (out == Rejected(NoRunId) && w == Over(root).start)
         || (out == Rejected(BadInventory) && w.active == None
             && First() in w.leaves && w.leaves[First()].journal == Some(GivenUpDirectory(root)))
  {
    var k := Over(root);
    StartIsStarted(root);
    var evidence := new EvidenceRoot(k.root, k.codec, k.sortsBefore, k.start);
    ghost var start := k.start;
    hide Over, Started, Names, Unsealed, GivenUpDirectory, First, Finished;
    out := evidence.RollOver(k.terminal.runId, DigestState(k.terminal), k);
    w := evidence.w;
    ghost var end := w;
    if out == Done {
      DoneMeansSized(k, start, out, end);
      assert false;
    } else if out == Rejected(BadInventory) {
      ghost var r :| Unsealed(k, r, end);
      UnsealedOver(root, r, end);
    }
  }
}
