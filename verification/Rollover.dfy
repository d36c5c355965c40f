/**
 The rollover of a reconciled, aborted reboot journal: archive it, seal the archive, activate a
 fresh journal, and be able to resume after a crash at any step
 (deploy/scripts/active_edge_reboot_journal.py, `_rollover` and its helpers).

 Files that are published without replacement are the slots of module ExclusivePublication, and
 their publication here is exactly the relation proved there for the system calls.
 */
module Rollover {
  import opened Options
  import opened RebootDocuments
  import opened RebootJournal
  import opened ArchiveInventory
  import P = ExclusivePublication

  type Bytes = P.Bytes
  type Slot = P.Slot

  const JOURNAL := Other("journal")

  /** Canonical JSON text of the documents: `Parse` accepts a text only if rendering gives it back. */
  datatype Codec = Codec(encode: Doc -> Bytes, decode: Bytes -> Doc) {
    function Parse(raw: Bytes): Option<Doc> {
      if encode(decode(raw)) == raw then Some(decode(raw)) else None
    }

    function SizeOf(): Doc -> nat { d => |encode(d)| }

    predicate Keeps(d: Doc) { decode(encode(d)) == d && encode(d) != [] }
  }

  datatype Leaf = Leaf(entries: Entries, journal: Option<Entries>, manifest: Slot, receipt: Slot)

  /** The evidence root: the transaction file, the active journal directory, the initializer
      directories (each holding one state file) and the evidence leaves. */
  datatype World = World(
    transaction: Slot, active: Option<Entries>, initializers: map<RunId, Slot>, leaves: map<RunId, Leaf>)

  const EMPTY_LEAF := Leaf(Nil, None, P.Slot.Empty, P.Slot.Empty)

  /** The entries of a directory whose one file is published in a slot. */
  function DirOf(c: Codec, s: Slot): Entries {
    if s.Published? then Cons(StateJson, FileNode(Stored(c.decode(s.raw), true)), Nil) else Nil
  }

  function Load(root: string, w: World, directory: Entries): Option<Journal> {
    var files := FilesOf(directory);
    var raw := SecureRead(files, StateJson);
    if raw.Some? && raw.value.StateDoc? && raw.value.state.runId in w.leaves
       && ValidState(raw.value.state, root, files, FilesOf(w.leaves[raw.value.state.runId].entries))
    then Some(raw.value.state) else None
  }

  function ReadSlot(c: Codec, s: Slot): Option<Doc> {
    if s.Published? && |s.raw| <= P.MAX_READ then c.Parse(s.raw) else None
  }

  // ---------------------------------------------------------------- the documents

  function TransactionFor(root: string, terminal: Journal, runId: RunId): Transaction {
    var next := NewState(root, runId);
    var unsigned := Transaction(terminal.runId, DigestState(terminal), next.evidenceDirectory, runId, DigestState(next), None);
    unsigned.(transactionDigest := Some(Of(TransactionDoc(unsigned))))
  }

  predicate ValidTransaction(root: string, t: Transaction, runId: RunId, digest: Digest) {
    && t.fromRunId == runId && t.fromStateDigest == digest
    && RunIdShape(t.newRunId) && t.newRunId != runId
    && t.newEvidenceDirectory == root + "/" + t.newRunId
    && t.transactionDigest == Some(Of(TransactionDoc(t.(transactionDigest := None))))
  }

  function ManifestFor(files: seq<Entry>, runId: RunId, digest: Digest): Manifest {
    var unsigned := Manifest(files, runId, digest, None);
    unsigned.(manifestDigest := Some(Of(ManifestDoc(unsigned))))
  }

  function ReceiptFor(t: Transaction, manifest: Manifest): Receipt
    requires manifest.manifestDigest.Some? && t.transactionDigest.Some?
  {
    var unsigned := Receipt(manifest.manifestDigest.value, [JOURNAL, StateJson], t.fromRunId, t.fromStateDigest,
                            t.newEvidenceDirectory, t.newRunId, t.newStateDigest, t.transactionDigest.value, None);
    unsigned.(receiptDigest := Some(Of(ReceiptDoc(unsigned))))
  }

  /** The retained leaf as the inventory walks it: its own entries with the archived journal among
      them in name order; the manifest, the receipt and their staging are skipped. */
  function WithJournal(entries: Entries, journal: Entries, sortsBefore: FileName -> bool): Entries {
    match entries
    case Nil => Cons(JOURNAL, DirNode(journal), Nil)
    case Cons(name, node, rest) =>
      if sortsBefore(name) then Cons(name, node, WithJournal(rest, journal, sortsBefore))
      else Cons(JOURNAL, DirNode(journal), entries)
  }

  function LeafInventory(leaf: Leaf, sortsBefore: FileName -> bool, sizeOf: Doc -> nat): Option<seq<Entry>> {
    var entries := if leaf.journal.Some? then WithJournal(leaf.entries, leaf.journal.value, sortsBefore) else leaf.entries;
    var files := Inventory(entries, sizeOf);
    if files.Some? && ListsPath(files.value, [JOURNAL, StateJson]) then files else None
  }

  predicate ListsPath(files: seq<Entry>, path: Path) {
    exists i | 0 <= i < |files| :: files[i].path == path
  }

  // ---------------------------------------------------------------- where a rollover stands

  /** The rollover of one terminal journal, from one clean evidence root. */
  datatype Context = Context(
    root: string, codec: Codec, sortsBefore: FileName -> bool, start: World, terminal: Journal, journal: Entries, leaf: Entries)
  {
    function FreshDoc(r: RunId): Doc { StateDoc(NewState(root, r)) }
    function TxDoc(r: RunId): Doc { TransactionDoc(TransactionFor(root, terminal, r)) }
    function Archive(): Entries { WithJournal(leaf, journal, sortsBefore) }
    function Sealed(): Manifest {
      ManifestFor(Listed(Flatten(Archive(), []), codec.SizeOf()), terminal.runId, DigestState(terminal))
    }
    function Sized(): bool { Admissible(Flatten(Archive(), []), codec.SizeOf()) }
    function Slip(r: RunId): Doc { ReceiptDoc(ReceiptFor(TransactionFor(root, terminal, r), Sealed())) }
  }

  /** The run ids that a rollover from this context can allocate. */
  predicate Allocatable(k: Context, r: RunId) {
    RunIdShape(r) && r !in k.start.leaves
  }

  ghost predicate Clean(k: Context) {
    && (forall r | Allocatable(k, r) :: k.codec.Keeps(k.FreshDoc(r)) && k.codec.Keeps(k.TxDoc(r)) && k.codec.Keeps(k.Slip(r)))
    && k.codec.Keeps(ManifestDoc(k.Sealed()))
    && k.start == World(P.Slot.Empty, Some(k.journal), map[], k.start.leaves)
    && k.terminal.runId in k.start.leaves
    && k.start.leaves[k.terminal.runId] == Leaf(k.leaf, None, P.Slot.Empty, P.Slot.Empty)
    && Load(k.root, k.start, k.journal) == Some(k.terminal)
    && k.terminal.status == Aborted
    && (forall r | Allocatable(k, r) ::
          && |k.codec.encode(k.TxDoc(r))| <= P.MAX_READ
          && |k.codec.encode(k.Slip(r))| <= P.MAX_READ)
    && (forall r, s | Allocatable(k, r) && Allocatable(k, s) :: |k.codec.encode(k.TxDoc(r))| == |k.codec.encode(k.TxDoc(s))|)
    && |k.codec.encode(ManifestDoc(k.Sealed()))| <= P.MAX_READ
  }

  datatype Progress =
    | Allocated                  // the transaction alone
    | LeafMade                   // and the new evidence leaf
    | Initializing(slot: Slot)   // and the initializer directory, its state file in some slot
    | Archived(manifest: Slot)   // the journal is archived, its manifest in some slot
    | Activated(receipt: Slot)   // the fresh journal is active, the receipt in some slot

  function At(k: Context, r: RunId, transaction: Slot, p: Progress): World {
    var archived := k.terminal.runId;
    match p
    case Allocated => k.start.(transaction := transaction)
    case LeafMade => k.start.(transaction := transaction, leaves := k.start.leaves[r := EMPTY_LEAF])
    case Initializing(slot) =>
      k.start.(transaction := transaction, leaves := k.start.leaves[r := EMPTY_LEAF], initializers := map[r := slot])
    case Archived(manifest) =>
      World(transaction, None, map[r := P.Slot.Published(k.codec.encode(k.FreshDoc(r)))],
            k.start.leaves[r := EMPTY_LEAF][archived := Leaf(k.leaf, Some(k.journal), manifest, P.Slot.Empty)])
    case Activated(receipt) =>
      World(transaction, Some(FreshDirectory(k, r)), map[],
            k.start.leaves[r := EMPTY_LEAF][archived := Leaf(k.leaf, Some(k.journal),
              P.Slot.Published(k.codec.encode(ManifestDoc(k.Sealed()))), receipt)])
  }

  function FreshDirectory(k: Context, r: RunId): Entries {
    Cons(StateJson, FileNode(Stored(k.FreshDoc(r), true)), Nil)
  }

  predicate WellPlaced(k: Context, r: RunId, p: Progress) {
    match p
    case Allocated => true
    case LeafMade => true
    case Initializing(slot) => P.WriterSlot(slot, k.codec.encode(k.FreshDoc(r)))
    case Archived(manifest) =>
      P.WriterSlot(manifest, k.codec.encode(ManifestDoc(k.Sealed()))) && (manifest.Empty? || k.Sized())
    case Activated(receipt) => P.WriterSlot(receipt, k.codec.encode(k.Slip(r))) && k.Sized()
  }

  function Stage(p: Progress): nat {
    match p
    case Allocated => 0
    case LeafMade => 1
    case Initializing(s) => if s.Published? then 3 else 2
    case Archived(m) => if m.Published? then 5 else 4
    case Activated(s) => if s.Published? then 7 else 6
  }

  /** The transaction is durable and visible, and the world stands at `p`. */
  ghost predicate Point(k: Context, r: RunId, p: Progress, w: World) {
    && Clean(k) && Allocatable(k, r) && WellPlaced(k, r, p)
    && w == At(k, r, P.Slot.Published(k.codec.encode(k.TxDoc(r))), p)
  }

  // ---------------------------------------------------------------- facts about those worlds

  lemma FreshIsValid(root: string, r: RunId, files: Files, leaf: Files)
    requires RunIdShape(r)
    ensures ValidState(NewState(root, r), root, files, leaf)
  {
    var s := NewState(root, r);
    assert s.(stateDigest := None) == Journal(r, root + "/" + r, InProgress, Some(Sbc1), EmptyNode(), EmptyNode(), None, None, None);
  }

  lemma FreshLoads(k: Context, r: RunId, w: World)
    requires RunIdShape(r) && r in w.leaves
    ensures Load(k.root, w, FreshDirectory(k, r)) == Some(NewState(k.root, r))
  {
    assert FilesOf(FreshDirectory(k, r)) == map[StateJson := Stored(k.FreshDoc(r), true)];
    FreshIsValid(k.root, r, FilesOf(FreshDirectory(k, r)), FilesOf(w.leaves[r].entries));
  }

  lemma TerminalLoads(k: Context, w: World)
    requires Clean(k) && k.terminal.runId in w.leaves && w.leaves[k.terminal.runId].entries == k.leaf
    ensures Load(k.root, w, k.journal) == Some(k.terminal)
    ensures k.terminal.stateDigest == Some(DigestState(k.terminal)) && RunIdShape(k.terminal.runId)
  {
  }

  predicate Finds(found: seq<Found>, path: Path) {
    exists i | 0 <= i < |found| :: found[i].path == path
  }

  lemma FindsInConcat(a: seq<Found>, b: seq<Found>, path: Path)
    requires Finds(a, path) || Finds(b, path)
    ensures Finds(a + b, path)
  {
    if Finds(a, path) {
      var i :| 0 <= i < |a| && a[i].path == path;
      assert (a + b)[i] == a[i];
    } else {
      var i :| 0 <= i < |b| && b[i].path == path;
      assert (a + b)[|a| + i] == b[i];
    }
  }

  lemma {:induction false} FileIsFlattened(entries: Entries, directory: Path, name: FileName)
    requires name in FilesOf(entries)
    ensures Finds(Flatten(entries, directory), directory + [name])
    decreases entries
  {
    match entries {
      case Cons(n, FileNode(stored), rest) =>
        var here := [Found(directory + [n], stored)];
        if n == name { assert here[0].path == directory + [name]; } else { FileIsFlattened(rest, directory, name); }
        FindsInConcat(here, Flatten(rest, directory), directory + [name]);
      case Cons(n, DirNode(inner), rest) =>
        FileIsFlattened(rest, directory, name);
        FindsInConcat(Flatten(inner, directory + [n]), Flatten(rest, directory), directory + [name]);
    }
  }

  lemma {:induction false} JournalIsFlattened(entries: Entries, journal: Entries, sortsBefore: FileName -> bool, name: FileName)
    requires name in FilesOf(journal)
    ensures Finds(Flatten(WithJournal(entries, journal, sortsBefore), []), [JOURNAL, name])
    decreases entries
  {
    hide Finds;
    var all := WithJournal(entries, journal, sortsBefore);
    assert [] + [JOURNAL] == [JOURNAL] && [JOURNAL] + [name] == [JOURNAL, name];
    if entries.Nil? || !sortsBefore(entries.name) {
      FileIsFlattened(journal, [JOURNAL], name);
      FindsInConcat(Flatten(journal, [JOURNAL]), Flatten(all.rest, []), [JOURNAL, name]);
    } else {
      JournalIsFlattened(entries.rest, journal, sortsBefore, name);
      var head := match entries.node
                  case DirNode(inner) => Flatten(inner, [] + [entries.name])
                  case FileNode(stored) => [Found([] + [entries.name], stored)];
      assert Flatten(all, []) == head + Flatten(all.rest, []);
      FindsInConcat(head, Flatten(all.rest, []), [JOURNAL, name]);
    }
  }

  /** The inventory of the archived leaf: everything, or a refusal, by the size test alone. */
  lemma ArchiveInventoried(k: Context, leaf: Leaf)
    requires Clean(k) && leaf.entries == k.leaf && leaf.journal == Some(k.journal)
    ensures LeafInventory(leaf, k.sortsBefore, k.codec.SizeOf())
         == if k.Sized() then Some(Listed(Flatten(k.Archive(), []), k.codec.SizeOf())) else None
  {
    var sizeOf := k.codec.SizeOf();
    var all := Flatten(k.Archive(), []);
    InventoryIsExact(k.Archive(), sizeOf);
    assert StateJson in FilesOf(k.journal);
    JournalIsFlattened(k.leaf, k.journal, k.sortsBefore, StateJson);
    hide Clean, Admissible, Flatten, Inventory, WithJournal;
    var i :| 0 <= i < |all| && all[i].path == [JOURNAL, StateJson];
    var files := Inventory(WithJournal(leaf.entries, leaf.journal.value, k.sortsBefore), sizeOf);
    if files.Some? {
      assert files.value[i].path == [JOURNAL, StateJson];
      assert ListsPath(files.value, [JOURNAL, StateJson]);
      hide ListsPath, Listed;
      assert LeafInventory(leaf, k.sortsBefore, sizeOf) == files;
    }
  }

  // ---------------------------------------------------------------- reading the archive back

  /** The manifest in a leaf, if it matches what the leaf retains. */
  function ReadManifest(c: Codec, sortsBefore: FileName -> bool, leaf: Leaf, runId: RunId, digest: Digest): Option<Manifest> {
    var doc := ReadSlot(c, leaf.manifest);
    if doc.Some? && doc.value.ManifestDoc?
       && doc.value.manifest.fromRunId == runId && doc.value.manifest.fromStateDigest == digest
       && doc.value.manifest.manifestDigest == Some(Of(ManifestDoc(doc.value.manifest.(manifestDigest := None))))
       && LeafInventory(leaf, sortsBefore, c.SizeOf()) == Some(doc.value.manifest.files)
    then Some(doc.value.manifest) else None
  }

  predicate IsArchived(root: string, w: World, leaf: Leaf, runId: RunId, digest: Digest) {
    && leaf.journal.Some?
    && var s := Load(root, w, leaf.journal.value);
       s.Some? && s.value.runId == runId && s.value.stateDigest == Some(digest) && s.value.status == Aborted
  }

  /** The receipt of a completed rollover, if everything it seals is still there. */
  function ReadReceipt(root: string, c: Codec, sortsBefore: FileName -> bool, w: World, runId: RunId, digest: Digest): Option<Receipt> {
    if runId !in w.leaves then None
    else
      var leaf := w.leaves[runId];
      var manifest := ReadManifest(c, sortsBefore, leaf, runId, digest);
      var doc := ReadSlot(c, leaf.receipt);
      if && manifest.Some? && manifest.value.manifestDigest.Some? && doc.Some? && doc.value.ReceiptDoc?
         && IsArchived(root, w, leaf, runId, digest)
         && ValidReceipt(root, doc.value.receipt, manifest.value.manifestDigest.value, runId, digest)
      then Some(doc.value.receipt) else None
  }

  predicate ValidReceipt(root: string, r: Receipt, manifestDigest: Digest, runId: RunId, digest: Digest) {
    && r.fromRunId == runId && r.fromStateDigest == digest
    && r.archivedJournalPath == [JOURNAL, StateJson]
    && r.archiveManifestDigest == manifestDigest
    && RunIdShape(r.newRunId) && r.newRunId != runId && r.newEvidenceDirectory == root + "/" + r.newRunId
    && r.transactionDigest == Of(TransactionDoc(
         Transaction(r.fromRunId, r.fromStateDigest, r.newEvidenceDirectory, r.newRunId, r.newStateDigest, None)))
    && r.receiptDigest == Some(Of(ReceiptDoc(r.(receiptDigest := None))))
  }

  /** The transaction that names a successor and its state, signed. */
  function SignedTransaction(root: string, runId: RunId, digest: Digest, newRunId: RunId, newStateDigest: Digest): Transaction {
    var unsigned := Transaction(runId, digest, root + "/" + newRunId, newRunId, newStateDigest, None);
    unsigned.(transactionDigest := Some(Of(TransactionDoc(unsigned))))
  }

  /** A transaction that validates is determined by its successor and the successor's state. */
  lemma ValidTransactionsAreSigned(root: string, t: Transaction, runId: RunId, digest: Digest)
    ensures ValidTransaction(root, t, runId, digest)
       <==> RunIdShape(t.newRunId) && t.newRunId != runId && t == SignedTransaction(root, runId, digest, t.newRunId, t.newStateDigest)
  {
    var unsigned := t.(transactionDigest := None);
    assert unsigned.(transactionDigest := t.transactionDigest) == t;
    hide RunIdShape;
  }

  lemma ArchivedShows(root: string, w: World, leaf: Leaf, runId: RunId, digest: Digest)
    ensures IsArchived(root, w, leaf, runId, digest) <==>
      && leaf.journal.Some? && Load(root, w, leaf.journal.value).Some?
      && Load(root, w, leaf.journal.value).value.status == Aborted
      && Load(root, w, leaf.journal.value).value.runId == runId && Load(root, w, leaf.journal.value).value.stateDigest == Some(digest)
  {
    hide Load;
  }

  /** A receipt that validates is the one its own rollover writes: over the inventory of everything the leaf
      retains, for the named journal, which is archived there. */
  lemma ReceiptIsTheRollovers(root: string, c: Codec, sortsBefore: FileName -> bool, w: World, runId: RunId, digest: Digest)
    requires ReadReceipt(root, c, sortsBefore, w, runId, digest).Some?
    ensures runId in w.leaves && LeafInventory(w.leaves[runId], sortsBefore, c.SizeOf()).Some?
    ensures w.leaves[runId].journal.Some? && Load(root, w, w.leaves[runId].journal.value).Some?
    ensures var old' := Load(root, w, w.leaves[runId].journal.value).value;
      old'.status == Aborted && old'.runId == runId && old'.stateDigest == Some(digest)
    ensures var x := ReadReceipt(root, c, sortsBefore, w, runId, digest).value;
      var files := LeafInventory(w.leaves[runId], sortsBefore, c.SizeOf()).value;
      && RunIdShape(x.newRunId) && x.newRunId != runId
      && x == ReceiptFor(SignedTransaction(root, runId, digest, x.newRunId, x.newStateDigest), ManifestFor(files, runId, digest))
  {
    var leaf := w.leaves[runId];
    ArchivedShows(root, w, leaf, runId, digest);
    var m, x := ReadManifest(c, sortsBefore, leaf, runId, digest).value, ReadReceipt(root, c, sortsBefore, w, runId, digest).value;
    hide IsArchived, LeafInventory, ReadSlot, RunIdShape, Load;
    var files := LeafInventory(leaf, sortsBefore, c.SizeOf()).value;
    assert m.(manifestDigest := None) == Manifest(files, runId, digest, None);
    assert m == ManifestFor(files, runId, digest) by { assert m.(manifestDigest := None).(manifestDigest := m.manifestDigest) == m; }
    assert x == x.(receiptDigest := None).(receiptDigest := x.receiptDigest);
  }

  lemma SealedReads(k: Context, leaf: Leaf)
    requires Clean(k) && k.Sized() && leaf.entries == k.leaf && leaf.journal == Some(k.journal)
    requires leaf.manifest == P.Slot.Published(k.codec.encode(ManifestDoc(k.Sealed())))
    ensures ReadManifest(k.codec, k.sortsBefore, leaf, k.terminal.runId, DigestState(k.terminal)) == Some(k.Sealed())
  {
    ArchiveInventoried(k, leaf);
    var m := k.Sealed();
    assert m.(manifestDigest := None).(manifestDigest := m.manifestDigest) == m;
  }

  lemma ArchiveLoads(k: Context, w: World)
    requires Clean(k) && k.terminal.runId in w.leaves
    requires w.leaves[k.terminal.runId].entries == k.leaf && w.leaves[k.terminal.runId].journal == Some(k.journal)
    ensures IsArchived(k.root, w, w.leaves[k.terminal.runId], k.terminal.runId, DigestState(k.terminal))
  {
    TerminalLoads(k, w);
  }

  lemma SlipReads(k: Context, r: RunId, w: World)
    requires Clean(k) && Allocatable(k, r) && k.Sized() && k.terminal.runId in w.leaves
    requires w.leaves[k.terminal.runId] == Leaf(k.leaf, Some(k.journal), P.Slot.Published(k.codec.encode(ManifestDoc(k.Sealed()))),
                                                P.Slot.Published(k.codec.encode(k.Slip(r))))
    ensures ReadReceipt(k.root, k.codec, k.sortsBefore, w, k.terminal.runId, DigestState(k.terminal)) == Some(k.Slip(r).receipt)
  {
    SealedReads(k, w.leaves[k.terminal.runId]);
    ArchiveLoads(k, w);
    var x := k.Slip(r).receipt;
    assert x.(receiptDigest := None).(receiptDigest := x.receiptDigest) == x;
    assert r != k.terminal.runId;
    hide ReadManifest, IsArchived, ArchiveInventory.Admissible;
    assert ValidReceipt(k.root, x, k.Sealed().manifestDigest.value, k.terminal.runId, DigestState(k.terminal));
    assert ReadSlot(k.codec, w.leaves[k.terminal.runId].receipt) == Some(k.Slip(r));
  }

  // ---------------------------------------------------------------- the commands

  datatype Refusal =
    | BadArguments | Unreadable | NotTerminal | ReservedName | NoRunId | BadTransaction | BadResources | BadJournal
    | NotArchived | BadInventory | BadManifest | BadReceipt | Publication(reason: P.Reason)

  datatype Outcome = Done | Rejected(refusal: Refusal) | Crashed

  function Translated(out: P.Outcome): Outcome {
    match out
    case Done => Done
    case Rejected(reason) => Rejected(Publication(reason))
    case Crashed => Crashed
  }

  // ---------------------------------------------------------------- what a call demands, in any world

  /** The active journal is exactly the terminal one that is named, and its leaf reserves nothing yet. */
  predicate Eligible(root: string, w: World, runId: RunId, digest: Digest) {
    && runId in w.leaves && w.leaves[runId].journal == None && w.leaves[runId].manifest.Empty? && w.leaves[runId].receipt.Empty?
    && w.active.Some?
    && var terminal := Load(root, w, w.active.value);
       && terminal.Some? && terminal.value.status == Aborted
       && terminal.value.runId == runId && terminal.value.stateDigest == Some(digest)
  }

  /** Neither a transaction nor a receipt of the named run is visible. */
  predicate NotBegun(w: World, runId: RunId) {
    P.TargetOf(w.transaction) == None && (runId in w.leaves ==> P.TargetOf(w.leaves[runId].receipt) == None)
  }

  /** A visible transaction is a valid one of the named run. */
  predicate Authorizes(root: string, codec: Codec, raw: Bytes, runId: RunId, digest: Digest) {
    && |raw| <= P.MAX_READ
    && var doc := codec.Parse(raw);
       doc.Some? && doc.value.TransactionDoc? && ValidTransaction(root, doc.value.transaction, runId, digest)
  }

  /** Interrupted links of the transaction and the receipt may have been finished. */
  ghost predicate OnlyTidied(w: World, w': World, runId: RunId) {
    && w' == w.(transaction := w'.transaction, leaves := w'.leaves) && P.TargetOf(w'.transaction) == P.TargetOf(w.transaction)
    && (w'.leaves == w.leaves
        || (runId in w.leaves && exists slot ::
              P.TargetOf(slot) == P.TargetOf(w.leaves[runId].receipt) && w'.leaves == w.leaves[runId := w.leaves[runId].(receipt := slot)]))
  }

  /** No evidence and no journal is lost: the leaves keep what they hold, and the active journal stays or is the
      named leaf's. */
  predicate Retains(w: World, w': World, runId: RunId) {
    && (forall id | id in w.leaves ::
          && id in w'.leaves && w'.leaves[id].entries == w.leaves[id].entries
          && (w.leaves[id].journal.Some? ==> w'.leaves[id].journal == w.leaves[id].journal))
    && (w.active.Some? ==> w'.active == w.active || (runId in w'.leaves && w'.leaves[runId].journal == w.active))
  }

  /** The resources of a transaction are there: its empty leaf, and its fresh journal either active or in an
      initializer. */
  predicate Prepared(root: string, codec: Codec, w: World, t: Transaction) {
    var r, expected := t.newRunId, NewState(root, t.newRunId);
    && r in w.leaves && w.leaves[r] == EMPTY_LEAF && DigestState(expected) == t.newStateDigest
    && (|| (w.active.Some? && Load(root, w, w.active.value) == Some(expected) && r !in w.initializers)
        || (r in w.initializers && Load(root, w, DirOf(codec, w.initializers[r])) == Some(expected)))
  }

  /** The active journal, of the named run, has become its leaf's. */
  predicate ArchivesActive(root: string, w: World, w': World, runId: RunId) {
    && w.active.Some? && runId in w.leaves && w.leaves[runId].journal == None
    && Load(root, w, w.active.value).Some? && Load(root, w, w.active.value).value.runId == runId
    && w' == w.(active := None, leaves := w.leaves[runId := w.leaves[runId].(journal := w.active)])
  }

  /** The active journal is the fresh one of a run. */
  predicate IsFresh(root: string, w: World, r: RunId, digest: Digest) {
    && w.active.Some?
    && var s := Load(root, w, w.active.value);
       s.Some? && s.value.runId == r && s.value.stateDigest == Some(digest) && s.value.status == InProgress && s.value.currentNode == Some(Sbc1)
  }

  /** The receipt reads back, against the archived journal and its manifest, and the active journal is the one
      it names. */
  predicate Completed(root: string, codec: Codec, sortsBefore: FileName -> bool, w: World, runId: RunId, digest: Digest) {
    var receipt := ReadReceipt(root, codec, sortsBefore, w, runId, digest);
    && receipt.Some? && w.active.Some?
    && var s := Load(root, w, w.active.value);
       s.Some? && s.value.runId == receipt.value.newRunId && s.value.stateDigest == Some(receipt.value.newStateDigest)
  }

  lemma RetainsTransitive(a: World, b: World, c: World, runId: RunId)
    requires Retains(a, b, runId) && Retains(b, c, runId)
    ensures Retains(a, c, runId)
  {
  }

  lemma RetainsItself(w: World, runId: RunId)
    ensures Retains(w, w, runId)
  {
  }

  lemma TidiedItself(w: World, runId: RunId)
    ensures OnlyTidied(w, w, runId)
  {
  }

  lemma TransactionTidied(w: World, w': World, out: P.Outcome, slot: Slot, runId: RunId)
    requires P.NormalizeStep(w.transaction, P.MAX_NORMALIZE, out, slot) && w' == w.(transaction := slot)
    ensures Retains(w, w', runId) && OnlyTidied(w, w', runId)
    ensures out == P.Outcome.Done && P.TargetOf(w.transaction).Some? ==> slot == P.Slot.Published(P.TargetOf(w.transaction).value)
  {
  }

  lemma ReceiptTidied(w0: World, w: World, w': World, out: P.Outcome, slot: Slot, runId: RunId)
    requires Retains(w0, w, runId) && OnlyTidied(w0, w, runId) && w.leaves == w0.leaves && runId in w.leaves
    requires P.NormalizeStep(w.leaves[runId].receipt, P.MAX_NORMALIZE, out, slot)
    requires w' == w.(leaves := w.leaves[runId := w.leaves[runId].(receipt := slot)])
    ensures Retains(w0, w', runId) && OnlyTidied(w0, w', runId)
  {
    assert P.TargetOf(slot) == P.TargetOf(w.leaves[runId].receipt);
    assert w'.leaves == w0.leaves[runId := w0.leaves[runId].(receipt := slot)];
    ReceiptRetains(w, w', runId);
    RetainsTransitive(w0, w, w', runId);
    hide Retains;
  }

  lemma CompletedNow(root: string, codec: Codec, sortsBefore: FileName -> bool, w: World, runId: RunId, digest: Digest)
    requires ReadReceipt(root, codec, sortsBefore, w, runId, digest).Some? && w.active.Some? && Load(root, w, w.active.value).Some?
    requires var s, receipt := Load(root, w, w.active.value).value, ReadReceipt(root, codec, sortsBefore, w, runId, digest).value;
             s.runId == receipt.newRunId && s.stateDigest == Some(receipt.newStateDigest)
    ensures Completed(root, codec, sortsBefore, w, runId, digest)
  {
    hide Load, ReadReceipt;
  }

  lemma ValidIsSigned(root: string, t: Transaction, runId: RunId, digest: Digest)
    requires ValidTransaction(root, t, runId, digest)
    ensures t.transactionDigest.Some?
  {
  }

  lemma ResourcesRetain(w: World, w': World, r: RunId, runId: RunId)
    requires w' == w.(leaves := w'.leaves, initializers := w'.initializers)
    requires w'.leaves == w.leaves || (r !in w.leaves && w'.leaves == w.leaves[r := EMPTY_LEAF])
    ensures Retains(w, w', runId)
  {
  }

  lemma ArchiveRetains(root: string, w: World, w': World, runId: RunId)
    requires w' == w || ArchivesActive(root, w, w', runId)
    ensures Retains(w, w', runId)
  {
    hide Load;
  }

  lemma ManifestRetains(w: World, w': World, runId: RunId)
    requires w' == w || (runId in w.leaves && exists slot :: w' == w.(leaves := w.leaves[runId := w.leaves[runId].(manifest := slot)]))
    ensures Retains(w, w', runId)
  {
  }

  lemma ReceiptRetains(w: World, w': World, runId: RunId)
    requires w' == w || (runId in w.leaves && exists slot :: w' == w.(leaves := w.leaves[runId := w.leaves[runId].(receipt := slot)]))
    ensures Retains(w, w', runId)
  {
  }

  lemma ActivationRetains(w: World, w': World, runId: RunId)
    requires w' == w || (w.active == None && w' == w.(active := w'.active, initializers := w'.initializers))
    ensures Retains(w, w', runId)
  {
  }

  lemma RemovalRetains(w: World, w': World, runId: RunId)
    requires w' == w.(transaction := w'.transaction)
    ensures Retains(w, w', runId)
  {
  }

  lemma LoadFrame(root: string, w: World, w': World, directory: Entries)
    requires forall id | id in w.leaves || id in w'.leaves :: id in w.leaves && id in w'.leaves && w'.leaves[id].entries == w.leaves[id].entries
    ensures Load(root, w', directory) == Load(root, w, directory)
  {
    hide ValidState;
  }

  lemma ReceiptFrame(root: string, codec: Codec, sortsBefore: FileName -> bool, w: World, w': World, runId: RunId, digest: Digest)
    requires w'.leaves == w.leaves
    ensures ReadReceipt(root, codec, sortsBefore, w', runId, digest) == ReadReceipt(root, codec, sortsBefore, w, runId, digest)
  {
    if runId in w.leaves && w.leaves[runId].journal.Some? { LoadFrame(root, w, w', w.leaves[runId].journal.value); }
    hide Load, ReadManifest, ReadSlot, ValidReceipt;
  }

  /** A receipt written beside a fresh active journal completes the rollover. */
  lemma CompletedAfter(root: string, codec: Codec, sortsBefore: FileName -> bool, w: World, w': World, w'': World, t: Transaction,
                       manifest: Manifest, runId: RunId, digest: Digest)
    requires manifest.manifestDigest.Some? && t.transactionDigest.Some?
    requires IsFresh(root, w, t.newRunId, t.newStateDigest)
    requires w' == w || (runId in w.leaves && exists slot :: w' == w.(leaves := w.leaves[runId := w.leaves[runId].(receipt := slot)]))
    requires ReadReceipt(root, codec, sortsBefore, w', runId, digest) == Some(ReceiptFor(t, manifest))
    requires w'' == w'.(transaction := P.Slot.Empty)
    ensures Completed(root, codec, sortsBefore, w'', runId, digest) && IsFresh(root, w'', t.newRunId, t.newStateDigest)
  {
    LoadFrame(root, w, w', w.active.value);
    LoadFrame(root, w', w'', w.active.value);
    ReceiptFrame(root, codec, sortsBefore, w', w'', runId, digest);
    hide Load, ReadReceipt;
  }

  lemma PreparedActive(root: string, codec: Codec, w: World, t: Transaction)
    requires t.newRunId in w.leaves && w.leaves[t.newRunId] == EMPTY_LEAF && DigestState(NewState(root, t.newRunId)) == t.newStateDigest
    requires w.active.Some? && Load(root, w, w.active.value) == Some(NewState(root, t.newRunId)) && t.newRunId !in w.initializers
    ensures Prepared(root, codec, w, t)
  {
    hide Load, NewState;
  }

  lemma PreparedInitializer(root: string, codec: Codec, w: World, t: Transaction)
    requires t.newRunId in w.leaves && w.leaves[t.newRunId] == EMPTY_LEAF && DigestState(NewState(root, t.newRunId)) == t.newStateDigest
    requires t.newRunId in w.initializers && Load(root, w, DirOf(codec, w.initializers[t.newRunId])) == Some(NewState(root, t.newRunId))
    ensures Prepared(root, codec, w, t)
  {
    hide Load, NewState;
  }

  class EvidenceRoot {
    const root: string
    const codec: Codec
    const sortsBefore: FileName -> bool
    var w: World

    constructor (root: string, codec: Codec, sortsBefore: FileName -> bool, w: World)
      ensures this.root == root && this.codec == codec && this.sortsBefore == sortsBefore && this.w == w
    {
      this.root, this.codec, this.sortsBefore, this.w := root, codec, sortsBefore, w;
    }

    ghost predicate Serves(k: Context) {
      root == k.root && codec == k.codec && sortsBefore == k.sortsBefore
    }

    /** One directory operation and its directory sync: a crash keeps it or loses it. */
    method Commit(next: World) returns (crashed: bool)
      modifies this
      ensures if crashed then w == old(w) || w == next else w == next
    {
      var lost: bool := *;
      crashed := *;
      if !(crashed && lost) { w := next; }
    }

    /** One no-replace publication, as far as its slot is concerned. */
    method Publish(s: Slot, content: Bytes) returns (out: P.Outcome, s': Slot)
      ensures P.PublishStep(s, content, out, s')
    {
      out, s' := *, *;
      if !P.PublishStep(s, content, out, s') {
        if P.Admits(s, content) {
          out, s' := P.Outcome.Done, P.Slot.Published(content);
        } else {
          out := P.Outcome.Rejected(P.OutsideBounds);
          s' := if s.Linked? && 0 < |s.raw| <= |content| then P.Slot.Published(s.raw) else s;
        }
      }
    }

    /** One recovery of an interrupted link. */
    method Normalize(s: Slot) returns (out: P.Outcome, s': Slot)
      ensures P.NormalizeStep(s, P.MAX_NORMALIZE, out, s')
    {
      out, s' := *, *;
      if !P.NormalizeStep(s, P.MAX_NORMALIZE, out, s') {
        if (s.Linked? || s.Published?) && |s.raw| > P.MAX_NORMALIZE {
          out, s' := P.Outcome.Rejected(P.OutsideBounds), s;
        } else {
          out, s' := P.Outcome.Done, if s.Linked? then P.Slot.Published(s.raw) else s;
        }
      }
    }

    /** The new evidence leaf and the initializer directory with its state file. */
    method EnsureResources(t: Transaction, ghost k: Context, ghost p: Progress) returns (out: Outcome, ghost q: Progress)
      modifies this
      ensures w == old(w).(leaves := w.leaves, initializers := w.initializers)
      ensures w.leaves == old(w).leaves || (t.newRunId !in old(w).leaves && w.leaves == old(w).leaves[t.newRunId := EMPTY_LEAF])
      ensures w.initializers - {t.newRunId} == old(w).initializers - {t.newRunId}
      ensures out == Done ==> Prepared(root, codec, w, t)
      ensures Serves(k) && Point(k, t.newRunId, p, old(w)) && t == TransactionFor(k.root, k.terminal, t.newRunId) ==>
                && out in {Done, Crashed} && Point(k, t.newRunId, q, w) && Stage(p) <= Stage(q)
                && (out == Done ==> 3 <= Stage(q))
    {
      hide Point, TransactionFor, NewState, DigestState, Load, Prepared;
      var r := t.newRunId;
      ghost var here := Serves(k) && Point(k, r, p, w) && t == TransactionFor(k.root, k.terminal, r);
      q := p;
      if r !in w.leaves {
        ghost var before := w;
        var crashed := Commit(w.(leaves := w.leaves[r := EMPTY_LEAF]));
        if here { LeafStep(k, r, p, before, w); q := if w == before then p else LeafMade; }
        if crashed { return Crashed, q; }
      }
      if here { ResourceFacts(k, r, q, w, t); }
      if w.leaves[r] != EMPTY_LEAF { return Rejected(BadResources), q; }
      var expected := NewState(root, r);
      if DigestState(expected) != t.newStateDigest { return Rejected(BadResources), q; }
      if w.active.Some? {
        var active := Load(root, w, w.active.value);
        if active == None { return Rejected(Unreadable), q; }
        if active.value.runId == r {
          if r in w.initializers { return Rejected(BadResources), q; }
          if active.value != expected { return Rejected(BadResources), q; }
          PreparedActive(root, codec, w, t);
          return Done, q;
        }
      }
      if r !in w.initializers {
        ghost var before := w;
        var crashed := Commit(w.(initializers := w.initializers[r := P.Slot.Empty]));
        if here { InitializerStep(k, r, q, before, w); q := if w == before then q else Initializing(P.Slot.Empty); }
        if crashed { return Crashed, q; }
      }
      ghost var before := w;
      var published, slot := Publish(w.initializers[r], codec.encode(StateDoc(expected)));
      w := w.(initializers := w.initializers[r := slot]);
      if here { q := InitializerPublished(k, r, q, before, published, slot, w); }
      if published != P.Outcome.Done { return Translated(published), q; }
      if Load(root, w, DirOf(codec, slot)) != Some(expected) { return Rejected(BadResources), q; }
      PreparedInitializer(root, codec, w, t);
      return Done, q;
    }

    /** Move the terminal journal under its evidence leaf. */
    method ArchiveTerminal(runId: RunId, digest: Digest, newRunId: RunId, ghost k: Context, ghost p: Progress)
      returns (out: Outcome, ghost q: Progress)
      modifies this
      ensures w == old(w) || ArchivesActive(root, old(w), w, runId)
      ensures out == Done ==>
                && runId in w.leaves && w.leaves[runId].journal.Some? && Load(root, w, w.leaves[runId].journal.value).Some?
                && Load(root, w, w.leaves[runId].journal.value).value.status == Aborted
                && Load(root, w, w.leaves[runId].journal.value).value.runId == runId
                && Load(root, w, w.leaves[runId].journal.value).value.stateDigest == Some(digest)
      ensures Serves(k) && Point(k, newRunId, p, old(w)) && 3 <= Stage(p) && Names(k, runId, digest) ==>
                && out in {Done, Crashed} && Point(k, newRunId, q, w) && Stage(p) <= Stage(q)
                && (out == Done ==> 4 <= Stage(q))
    {
      hide Point, Load, IsArchived;
      ghost var here := Serves(k) && Point(k, newRunId, p, w) && 3 <= Stage(p) && Names(k, runId, digest);
      q := p;
      if here { ArchiveFacts(k, newRunId, p, w); }
      if runId !in w.leaves { return Rejected(BadResources), q; }
      if w.active.Some? {
        var active := Load(root, w, w.active.value);
        if active == None { return Rejected(Unreadable), q; }
        if active.value.runId == runId {
          if w.leaves[runId].journal.Some? { return Rejected(BadJournal), q; }
          ghost var before := w;
          var crashed := Commit(w.(active := None, leaves := w.leaves[runId := w.leaves[runId].(journal := w.active)]));
          if here {
            ArchiveStep(k, newRunId, p, before, w);
            q := if w == before then p else Archived(P.Slot.Empty);
            ArchiveFacts(k, newRunId, q, w);
          }
          if crashed { return Crashed, q; }
        } else if active.value.runId != newRunId {
          return Rejected(BadJournal), q;
        }
      }
      if w.leaves[runId].journal == None { return Rejected(NotArchived), q; }
      if !IsArchived(root, w, w.leaves[runId], runId, digest) { return Rejected(BadJournal), q; }
      ArchivedShows(root, w, w.leaves[runId], runId, digest);
      return Done, q;
    }

    /** Seal the archived leaf with a manifest of everything it retains. */
    method EnsureManifest(runId: RunId, digest: Digest, ghost k: Context, ghost r: RunId, ghost p: Progress)
      returns (out: Outcome, manifest: Option<Manifest>, ghost q: Progress)
      modifies this
      ensures w == old(w) || (runId in old(w).leaves && exists slot ::
                                w == old(w).(leaves := old(w).leaves[runId := old(w).leaves[runId].(manifest := slot)]))
      ensures out == Done ==> runId in w.leaves && manifest == ReadManifest(codec, sortsBefore, w.leaves[runId], runId, digest)
      ensures Serves(k) && Point(k, r, p, old(w)) && 4 <= Stage(p) && Names(k, runId, digest) ==>
                && Point(k, r, q, w) && Stage(p) <= Stage(q)
                && match out {
                     case Done => 5 <= Stage(q) && manifest == Some(k.Sealed())
                     case Crashed => true
                     case Rejected(refusal) => refusal == BadInventory && !k.Sized() && q == Archived(P.Slot.Empty)
                   }
      ensures out == Done ==> manifest.Some? && manifest.value.manifestDigest.Some?
    {
      hide Point, ReadManifest, LeafInventory;
      ghost var here := Serves(k) && Point(k, r, p, w) && 4 <= Stage(p) && Names(k, runId, digest);
      q, manifest := p, None;
      if here { ManifestFacts(k, r, p, w); }
      if runId !in w.leaves { return Rejected(BadResources), None, q; }
      var leaf := w.leaves[runId];
      ghost var before := w;
      if P.TargetOf(leaf.manifest).Some? {
        var out', slot := Normalize(leaf.manifest);
        w := w.(leaves := w.leaves[runId := leaf.(manifest := slot)]);
        if here { q := ManifestNormalized(k, r, p, before, out', slot, w); }
        if out' != P.Outcome.Done { return Translated(out'), None, q; }
      } else {
        var files := LeafInventory(leaf, sortsBefore, codec.SizeOf());
        if here && files == None { UnsizedIsUnsealed(k, r, p, w); }
        if files == None { return Rejected(BadInventory), None, q; }
        var out', slot := Publish(leaf.manifest, codec.encode(ManifestDoc(ManifestFor(files.value, runId, digest))));
        w := w.(leaves := w.leaves[runId := leaf.(manifest := slot)]);
        if here { q := ManifestPublished(k, r, p, before, out', slot, w); }
        if out' != P.Outcome.Done { return Translated(out'), None, q; }
      }
      manifest := ReadManifest(codec, sortsBefore, w.leaves[runId], runId, digest);
      if manifest == None || manifest.value.manifestDigest == None { return Rejected(BadManifest), None, q; }
      return Done, manifest, q;
    }

    /** Activate the fresh journal. */
    method Activate(t: Transaction, ghost k: Context, ghost p: Progress) returns (out: Outcome, ghost q: Progress)
      modifies this
      ensures w == old(w)
           || (old(w).active == None && t.newRunId in old(w).initializers
               && w == old(w).(active := Some(DirOf(codec, old(w).initializers[t.newRunId])), initializers := old(w).initializers - {t.newRunId}))
      ensures out == Done ==> IsFresh(root, w, t.newRunId, t.newStateDigest)
      ensures Serves(k) && Point(k, t.newRunId, p, old(w)) && 5 <= Stage(p) && t == TransactionFor(k.root, k.terminal, t.newRunId) ==>
                && out in {Done, Crashed} && Point(k, t.newRunId, q, w) && Stage(p) <= Stage(q)
                && (out == Done ==> 6 <= Stage(q))
    {
      hide Point, Load, TransactionFor, NewState, DigestState;
      var r := t.newRunId;
      ghost var here := Serves(k) && Point(k, r, p, w) && 5 <= Stage(p) && t == TransactionFor(k.root, k.terminal, r);
      q := p;
      if here { ActivationFacts(k, r, p, w, t); }
      if w.active == None {
        if r !in w.initializers { return Rejected(BadResources), q; }
        ghost var before := w;
        var crashed := Commit(w.(active := Some(DirOf(codec, w.initializers[r])), initializers := w.initializers - {r}));
        if here {
          q := ActivationStep(k, r, p, before, w);
          ActivationFacts(k, r, q, w, t);
        }
        if crashed { return Crashed, q; }
      }
      var active := Load(root, w, w.active.value);
      if active == None { return Rejected(Unreadable), q; }
      if active.value.runId != r || active.value.stateDigest != Some(t.newStateDigest)
         || active.value.status != InProgress || active.value.currentNode != Some(Sbc1)
      {
        return Rejected(BadJournal), q;
      }
      return Done, q;
    }

    /** Publish the receipt, or accept exactly the one already there. */
    method EnsureReceipt(t: Transaction, manifest: Manifest, runId: RunId, digest: Digest, ghost k: Context, ghost p: Progress)
      returns (out: Outcome, ghost q: Progress)
      requires manifest.manifestDigest.Some? && t.transactionDigest.Some?
      modifies this
      ensures w == old(w) || (runId in old(w).leaves && exists slot ::
                                w == old(w).(leaves := old(w).leaves[runId := old(w).leaves[runId].(receipt := slot)]))
      ensures out == Done ==> ReadReceipt(root, codec, sortsBefore, w, runId, digest) == Some(ReceiptFor(t, manifest))
      ensures Serves(k) && Point(k, t.newRunId, p, old(w)) && 6 <= Stage(p) && Names(k, runId, digest)
              && t == TransactionFor(k.root, k.terminal, t.newRunId) && manifest == k.Sealed() ==>
                && out in {Done, Crashed} && Point(k, t.newRunId, q, w) && Stage(p) <= Stage(q)
                && (out == Done ==> 7 <= Stage(q))
    {
      hide Point, ReadReceipt, TransactionFor;
      var r := t.newRunId;
      ghost var here := Serves(k) && Point(k, r, p, w) && 6 <= Stage(p) && Names(k, runId, digest)
                        && t == TransactionFor(k.root, k.terminal, r) && manifest == k.Sealed();
      q := p;
      var expected := ReceiptFor(t, manifest);
      if here { ReceiptFacts(k, r, p, w, t); }
      if runId !in w.leaves { return Rejected(BadResources), q; }
      var leaf := w.leaves[runId];
      ghost var before := w;
      if P.TargetOf(leaf.receipt).Some? {
        var out', slot := Normalize(leaf.receipt);
        w := w.(leaves := w.leaves[runId := leaf.(receipt := slot)]);
        if here { q := ReceiptNormalized(k, r, p, before, out', slot, w); }
        if out' != P.Outcome.Done { return Translated(out'), q; }
      } else {
        var out', slot := Publish(leaf.receipt, codec.encode(ReceiptDoc(expected)));
        w := w.(leaves := w.leaves[runId := leaf.(receipt := slot)]);
        if here { q := ReceiptPublished(k, r, p, before, out', slot, w); }
        if out' != P.Outcome.Done { return Translated(out'), q; }
      }
      if ReadReceipt(root, codec, sortsBefore, w, runId, digest) != Some(expected) { return Rejected(BadReceipt), q; }
      return Done, q;
    }

    /** A run id that no evidence leaf has yet. */
    method NewRunId() returns (runId: Option<RunId>)
      ensures runId.Some? ==> RunIdShape(runId.value) && runId.value !in w.leaves
    {
      for attempt := 0 to 32 {
        var candidate: RunId := *;
        if RunIdShape(candidate) && candidate !in w.leaves { return Some(candidate); }
      }
      return None;
    }

    /** The first durable step: the exact terminal journal, and a transaction that names its successor. */
    method Allocate(runId: RunId, digest: Digest, ghost k: Context) returns (out: Outcome, ghost r: RunId)
      modifies this
      ensures w == old(w).(transaction := w.transaction)
      ensures !Eligible(root, old(w), runId, digest) ==> out.Rejected? && w == old(w)
      ensures out == Done ==>
                && RunIdShape(r) && r !in w.leaves && Eligible(root, old(w), runId, digest)
                && w.transaction
                   == P.Slot.Published(codec.encode(TransactionDoc(TransactionFor(root, Load(root, old(w), old(w).active.value).value, r))))
      ensures Serves(k) && Started(k, old(w)) && Names(k, runId, digest) ==>
                match out {
                  case Done => Point(k, r, Allocated, w)
                  case Crashed => Started(k, w) || Along(k, r, w)
                  case Rejected(refusal) => refusal == NoRunId && w == old(w)
                }
    {
      hide Load, TransactionFor, Clean, RunIdShape, DigestState;
      ghost var here := Serves(k) && Started(k, w) && Names(k, runId, digest);
      r := "";
      if here { StartFacts(k, w); }
      if w.active == None { return Rejected(Unreadable), r; }
      var terminal := Load(root, w, w.active.value);
      if terminal == None || runId !in w.leaves { return Rejected(Unreadable), r; }
      if terminal.value.status != Aborted || terminal.value.runId != runId || terminal.value.stateDigest != Some(digest) {
        return Rejected(NotTerminal), r;
      }
      var leaf := w.leaves[runId];
      if leaf.journal.Some? || !leaf.manifest.Empty? || !leaf.receipt.Empty? { return Rejected(ReservedName), r; }
      var chosen := NewRunId();
      if chosen == None { return Rejected(NoRunId), r; }
      r := chosen.value;
      ghost var before := w;
      var out', slot := Publish(w.transaction, codec.encode(TransactionDoc(TransactionFor(root, terminal.value, chosen.value))));
      w := w.(transaction := slot);
      if here { AllocationStep(k, r, before, out', slot, w); }
      return Translated(out'), r;
    }

    /** Everything after the transaction is durable, up to and including its removal. */
    method Continue(t: Transaction, runId: RunId, digest: Digest, ghost k: Context, ghost p: Progress) returns (out: Outcome)
      requires t.transactionDigest.Some?
      modifies this
      ensures Retains(old(w), w, runId)
      ensures out == Done ==>
                && Completed(root, codec, sortsBefore, w, runId, digest)
                && IsFresh(root, w, t.newRunId, t.newStateDigest) && w.transaction.Empty?
      ensures Serves(k) && Point(k, t.newRunId, p, old(w)) && t == TransactionFor(k.root, k.terminal, t.newRunId)
              && Names(k, runId, digest) ==>
                && Along(k, t.newRunId, w)
                && match out {
                     case Done => Finished(k, t.newRunId, w)
                     case Crashed => true
                     case Rejected(refusal) => refusal == BadInventory && Unsealed(k, t.newRunId, w)
                   }
                && (Unsealed(k, t.newRunId, old(w)) ==> w == old(w))
    {
      hide Point, Finished, Along, TransactionFor, DigestState, Unsealed, Retains, Completed, IsFresh, Load, ReadReceipt, ReadManifest, IsArchived,
           Prepared, ArchivesActive;
      ghost var w0 := w;
      ghost var here := Serves(k) && Point(k, t.newRunId, p, w) && t == TransactionFor(k.root, k.terminal, t.newRunId)
                        && Names(k, runId, digest);
      ghost var before := w;
      ghost var q: Progress;
      out, q := EnsureResources(t, k, p);
      ghost var w1 := w;
      ResourcesRetain(w0, w1, t.newRunId, runId);
      if here { PassedOn(k, t.newRunId, p, before, q, w); }
      if out != Done { return; }
      out, q := ArchiveTerminal(runId, digest, t.newRunId, k, q);
      ghost var w2 := w;
      ArchiveRetains(root, w1, w2, runId);
      RetainsTransitive(w0, w1, w2, runId);
      if here { PassedOn(k, t.newRunId, p, before, q, w); }
      if out != Done { return; }
      var manifest: Option<Manifest>;
      out, manifest, q := EnsureManifest(runId, digest, k, t.newRunId, q);
      ghost var w3 := w;
      ManifestRetains(w2, w3, runId);
      RetainsTransitive(w0, w2, w3, runId);
      if here { PassedOn(k, t.newRunId, p, before, q, w); }
      if out != Done { return; }
      out, q := Activate(t, k, q);
      ghost var w4 := w;
      ActivationRetains(w3, w4, runId);
      RetainsTransitive(w0, w3, w4, runId);
      if here { PassedOn(k, t.newRunId, p, before, q, w); }
      if out != Done { return; }
      out, q := EnsureReceipt(t, manifest.value, runId, digest, k, q);
      ghost var w5 := w;
      ReceiptRetains(w4, w5, runId);
      RetainsTransitive(w0, w4, w5, runId);
      if here { PassedOn(k, t.newRunId, p, before, q, w); }
      if out != Done { return; }
      if here { TransactionReads(k, t.newRunId, q, w); }
      if ReadSlot(codec, w.transaction) == None { return Rejected(BadTransaction); }
      ghost var sealed := w;
      var crashed := Commit(w.(transaction := P.Slot.Empty));
      if here { RemovalStep(k, t.newRunId, q, sealed, w); }
      RemovalRetains(w5, w, runId);
      RetainsTransitive(w0, w5, w, runId);
      if !crashed { CompletedAfter(root, codec, sortsBefore, w4, w5, w, t, manifest.value, runId, digest); }
      return if crashed then Crashed else Done;
    }

    /** The rollover command.  Called again with the same arguments after any crash, it is refused only
        for want of a run id before anything was created, or because the retained evidence breaks the
        inventory bounds; when it returns, the rollover is finished for the run id of the first durable
        transaction. */
    method RollOver(runId: RunId, digest: Digest, ghost k: Context) returns (out: Outcome)
      modifies this
      ensures Retains(old(w), w, runId)
      ensures NotBegun(old(w), runId) && !(RunIdShape(runId) && Eligible(root, old(w), runId, digest)) ==> out.Rejected? && w == old(w)
      ensures P.TargetOf(old(w).transaction).Some? && !Authorizes(root, codec, P.TargetOf(old(w).transaction).value, runId, digest) ==>
                out != Done && OnlyTidied(old(w), w, runId)
      ensures out == Done ==> Completed(root, codec, sortsBefore, w, runId, digest)
      ensures Serves(k) && Names(k, runId, digest) ==> Call(k, old(w), out, w)
    {
      hide Point, Finished, TransactionFor, DigestState, Started, Along, RunIdShape, Load, ReadReceipt, Retains, Completed, OnlyTidied, Eligible,
           IsFresh, ValidTransaction, Unsealed;
      ghost var w0 := w;
      RetainsItself(w, runId);
      TidiedItself(w, runId);
      ghost var named := Serves(k) && Names(k, runId, digest);
      ghost var r0, begun := CurrentRun(k, w);
      begun := begun && named;
      ghost var started := named && Started(k, w);
      ghost var r := r0;
      if begun || started { EntryFacts(k, r0, w); }
      if !RunIdShape(runId) { return Rejected(BadArguments); }
      if P.TargetOf(w.transaction).Some? {
        ghost var before := w;
        var out', slot := Normalize(w.transaction);
        w := w.(transaction := slot);
        if begun { TransactionNormalized(k, r0, before, out', slot, w); }
        TransactionTidied(before, w, out', slot, runId);
        if out' != P.Outcome.Done { return Translated(out'); }
      }
      if runId in w.leaves && P.TargetOf(w.leaves[runId].receipt).Some? {
        ghost var before := w;
        var out', slot := Normalize(w.leaves[runId].receipt);
        w := w.(leaves := w.leaves[runId := w.leaves[runId].(receipt := slot)]);
        if begun { TopReceiptNormalized(k, r0, before, out', slot, w); }
        ReceiptTidied(w0, before, w, out', slot, runId);
        if out' != P.Outcome.Done { return Translated(out'); }
      }
      if P.TargetOf(w.transaction) == None {
        if begun { FinishedFacts(k, r0, w); }
        if runId in w.leaves && P.TargetOf(w.leaves[runId].receipt).Some? {
          var receipt := ReadReceipt(root, codec, sortsBefore, w, runId, digest);
          if receipt == None { return Rejected(BadReceipt); }
          var active := if w.active == None then None else Load(root, w, w.active.value);
          if active == None { return Rejected(Unreadable); }
          if active.value.runId != receipt.value.newRunId || active.value.stateDigest != Some(receipt.value.newStateDigest) {
            return Rejected(BadReceipt);
          }
          CompletedNow(root, codec, sortsBefore, w, runId, digest);
          return Done;
        }
        ghost var before := w;
        out, r := Allocate(runId, digest, k);
        RemovalRetains(before, w, runId);
        RetainsTransitive(w0, before, w, runId);
        if out != Done { return; }
      }
      ghost var p: Progress := Allocated;
      if begun { p := TransactionFacts(k, r0, w); }
      if started { TransactionReads(k, r, Allocated, w); }
      var doc := ReadSlot(codec, w.transaction);
      if doc == None || !doc.value.TransactionDoc? || !ValidTransaction(root, doc.value.transaction, runId, digest) {
        return Rejected(BadTransaction);
      }
      ValidIsSigned(root, doc.value.transaction, runId, digest);
      ghost var before := w;
      out := Continue(doc.value.transaction, runId, digest, k, p);
      RetainsTransitive(w0, before, w, runId);
    }
  }

  /** The arguments of the command name the terminal journal of the context. */
  ghost predicate Names(k: Context, runId: RunId, digest: Digest) {
    runId == k.terminal.runId && digest == DigestState(k.terminal)
  }

  lemma ArchiveFacts(k: Context, r: RunId, p: Progress, w: World)
    requires Point(k, r, p, w) && 3 <= Stage(p)
    ensures k.terminal.runId in w.leaves && k.terminal.runId != r
    ensures Stage(p) == 3 ==>
              && w.active == Some(k.journal) && Load(k.root, w, k.journal) == Some(k.terminal)
              && w.leaves[k.terminal.runId].journal == None
    ensures 4 <= Stage(p) ==>
              && w.leaves[k.terminal.runId].journal.Some?
              && IsArchived(k.root, w, w.leaves[k.terminal.runId], k.terminal.runId, DigestState(k.terminal))
    ensures p.Archived? ==> w.active == None
    ensures p.Activated? ==> w.active.Some? && Load(k.root, w, w.active.value).Some? && Load(k.root, w, w.active.value).value.runId == r
  {
    if p.Activated? { FreshLoads(k, r, w); }
    if Stage(p) == 3 { TerminalLoads(k, w); } else { ArchiveLoads(k, w); }
  }

  lemma ArchiveStep(k: Context, r: RunId, p: Progress, w: World, w': World)
    requires Point(k, r, p, w) && Stage(p) == 3
    requires var leaf := w.leaves[k.terminal.runId];
             w' == w.(active := None, leaves := w.leaves[k.terminal.runId := leaf.(journal := w.active)]) || w' == w
    ensures Point(k, r, if w' == w then p else Archived(P.Slot.Empty), w')
  {
    assert k.terminal.runId != r;
  }

  lemma ManifestPlace(k: Context, r: RunId, p: Progress, w: World)
    requires Point(k, r, p, w) && 4 <= Stage(p)
    ensures Clean(k) && k.terminal.runId in w.leaves
    ensures var leaf := w.leaves[k.terminal.runId];
            && leaf.entries == k.leaf && leaf.journal == Some(k.journal)
            && (P.TargetOf(leaf.manifest) == None <==> Stage(p) == 4 && !p.manifest.Linked?)
  {
    hide Clean, Context.Sized, Context.Sealed;
  }

  lemma ManifestFacts(k: Context, r: RunId, p: Progress, w: World)
    requires Point(k, r, p, w) && 4 <= Stage(p)
    ensures k.terminal.runId in w.leaves
    ensures var leaf := w.leaves[k.terminal.runId];
            && LeafInventory(leaf, k.sortsBefore, k.codec.SizeOf())
               == (if k.Sized() then Some(Listed(Flatten(k.Archive(), []), k.codec.SizeOf())) else None)
            && (P.TargetOf(leaf.manifest) == None <==> Stage(p) == 4 && !p.manifest.Linked?)
  {
    ManifestPlace(k, r, p, w);
    hide Point, Clean, LeafInventory, Listed, Flatten, Context.Sized, Context.Archive;
    ArchiveInventoried(k, w.leaves[k.terminal.runId]);
  }

  lemma ManifestNormalized(k: Context, r: RunId, p: Progress, w: World, out: P.Outcome, slot: Slot, w': World) returns (q: Progress)
    requires Point(k, r, p, w) && 4 <= Stage(p) && k.terminal.runId in w.leaves
    requires var leaf := w.leaves[k.terminal.runId];
             && P.TargetOf(leaf.manifest).Some? && P.NormalizeStep(leaf.manifest, P.MAX_NORMALIZE, out, slot)
             && w' == w.(leaves := w.leaves[k.terminal.runId := leaf.(manifest := slot)])
    ensures Point(k, r, q, w') && Stage(p) <= Stage(q) && !out.Rejected?
    ensures out == P.Outcome.Done ==>
              && 5 <= Stage(q)
              && ReadManifest(k.codec, k.sortsBefore, w'.leaves[k.terminal.runId], k.terminal.runId, DigestState(k.terminal)) == Some(k.Sealed())
  {
    hide ReadManifest, LeafInventory, ArchiveInventory.Admissible, Flatten, Load;
    assert k.terminal.runId != r;
    q := if p.Archived? then Archived(slot) else p;
    assert Point(k, r, q, w');
    if out == P.Outcome.Done { SealedReads(k, w'.leaves[k.terminal.runId]); }
  }

  lemma ManifestPublished(k: Context, r: RunId, p: Progress, w: World, out: P.Outcome, slot: Slot, w': World) returns (q: Progress)
    requires Point(k, r, p, w) && p.Archived? && k.terminal.runId in w.leaves && k.Sized()
    requires var leaf := w.leaves[k.terminal.runId];
             && P.TargetOf(leaf.manifest) == None
             && P.PublishStep(leaf.manifest, k.codec.encode(ManifestDoc(k.Sealed())), out, slot)
             && w' == w.(leaves := w.leaves[k.terminal.runId := leaf.(manifest := slot)])
    ensures Point(k, r, q, w') && Stage(p) <= Stage(q) && !out.Rejected?
    ensures out == P.Outcome.Done ==>
              && 5 <= Stage(q)
              && ReadManifest(k.codec, k.sortsBefore, w'.leaves[k.terminal.runId], k.terminal.runId, DigestState(k.terminal)) == Some(k.Sealed())
  {
    hide ReadManifest, LeafInventory, ArchiveInventory.Admissible, Flatten, Load;
    assert k.terminal.runId != r;
    q := Archived(slot);
    assert P.WriterSlot(slot, k.codec.encode(ManifestDoc(k.Sealed())));
    assert Point(k, r, q, w');
    if out == P.Outcome.Done { SealedReads(k, w'.leaves[k.terminal.runId]); }
  }

  lemma ActivationFacts(k: Context, r: RunId, p: Progress, w: World, t: Transaction)
    requires Point(k, r, p, w) && 5 <= Stage(p) && t == TransactionFor(k.root, k.terminal, r)
    ensures p.Archived? ==> w.active == None && r in w.initializers
    ensures p.Activated? ==>
              && w.active.Some? && Load(k.root, w, w.active.value) == Some(NewState(k.root, r))
              && var s := NewState(k.root, r);
                 s.runId == r && s.stateDigest == Some(t.newStateDigest) && s.status == InProgress && s.currentNode == Some(Sbc1)
  {
    if p.Activated? {
      FreshLoads(k, r, w);
      FreshIsValid(k.root, r, map[], map[]);
    }
  }

  lemma ActivationStep(k: Context, r: RunId, p: Progress, w: World, w': World) returns (q: Progress)
    requires Point(k, r, p, w) && p.Archived? && 5 <= Stage(p) && r in w.initializers
    requires w' == w.(active := Some(DirOf(k.codec, w.initializers[r])), initializers := w.initializers - {r}) || w' == w
    ensures q == (if w' == w then p else Activated(P.Slot.Empty)) && Point(k, r, q, w')
  {
    q := if w' == w then p else Activated(P.Slot.Empty);
    assert DirOf(k.codec, w.initializers[r]) == FreshDirectory(k, r);
    assert w.initializers - {r} == map[];
  }

  lemma ReceiptFacts(k: Context, r: RunId, p: Progress, w: World, t: Transaction)
    requires Point(k, r, p, w) && 6 <= Stage(p) && t == TransactionFor(k.root, k.terminal, r)
    ensures k.terminal.runId in w.leaves && ReceiptDoc(ReceiptFor(t, k.Sealed())) == k.Slip(r)
    ensures P.TargetOf(w.leaves[k.terminal.runId].receipt) == None || p.receipt.Linked? || p.receipt.Published?
  {
  }

  lemma ReceiptNormalized(k: Context, r: RunId, p: Progress, w: World, out: P.Outcome, slot: Slot, w': World) returns (q: Progress)
    requires Point(k, r, p, w) && 6 <= Stage(p) && k.terminal.runId in w.leaves
    requires var leaf := w.leaves[k.terminal.runId];
             && P.TargetOf(leaf.receipt).Some? && P.NormalizeStep(leaf.receipt, P.MAX_NORMALIZE, out, slot)
             && w' == w.(leaves := w.leaves[k.terminal.runId := leaf.(receipt := slot)])
    ensures Point(k, r, q, w') && Stage(p) <= Stage(q) && !out.Rejected?
    ensures out == P.Outcome.Done ==>
              && 7 <= Stage(q)
              && ReadReceipt(k.root, k.codec, k.sortsBefore, w', k.terminal.runId, DigestState(k.terminal)) == Some(k.Slip(r).receipt)
  {
    hide ReadReceipt, ReadManifest, LeafInventory, ArchiveInventory.Admissible, Flatten, Load;
    assert k.terminal.runId != r;
    q := Activated(slot);
    assert Point(k, r, q, w');
    if out == P.Outcome.Done { SlipReads(k, r, w'); }
  }

  lemma ReceiptPublished(k: Context, r: RunId, p: Progress, w: World, out: P.Outcome, slot: Slot, w': World) returns (q: Progress)
    requires Point(k, r, p, w) && 6 <= Stage(p) && k.terminal.runId in w.leaves
    requires var leaf := w.leaves[k.terminal.runId];
             && P.TargetOf(leaf.receipt) == None
             && P.PublishStep(leaf.receipt, k.codec.encode(k.Slip(r)), out, slot)
             && w' == w.(leaves := w.leaves[k.terminal.runId := leaf.(receipt := slot)])
    ensures Point(k, r, q, w') && Stage(p) <= Stage(q) && !out.Rejected?
    ensures out == P.Outcome.Done ==>
              && 7 <= Stage(q)
              && ReadReceipt(k.root, k.codec, k.sortsBefore, w', k.terminal.runId, DigestState(k.terminal)) == Some(k.Slip(r).receipt)
  {
    hide ReadReceipt, ReadManifest, LeafInventory, ArchiveInventory.Admissible, Flatten, Load;
    assert k.terminal.runId != r;
    q := Activated(slot);
    assert P.WriterSlot(slot, k.codec.encode(k.Slip(r)));
    assert Point(k, r, q, w');
    if out == P.Outcome.Done { SlipReads(k, r, w'); }
  }

  lemma LeafStep(k: Context, r: RunId, p: Progress, w: World, w': World)
    requires Point(k, r, p, w) && r !in w.leaves
    requires w' == w.(leaves := w.leaves[r := EMPTY_LEAF]) || w' == w
    ensures p == Allocated && Point(k, r, if w' == w then p else LeafMade, w')
  {
  }

  /** What the allocation of resources finds at each point. */
  lemma ResourceFacts(k: Context, r: RunId, p: Progress, w: World, t: Transaction)
    requires Point(k, r, p, w) && r in w.leaves && t == TransactionFor(k.root, k.terminal, r)
    ensures p != Allocated && w.leaves[r] == EMPTY_LEAF && DigestState(NewState(k.root, r)) == t.newStateDigest
    ensures p.Archived? ==> w.active == None && r in w.initializers
    ensures p.Activated? ==>
              && w.active.Some? && Load(k.root, w, w.active.value) == Some(NewState(k.root, r))
              && NewState(k.root, r).runId == r && r !in w.initializers
    ensures p.LeafMade? || p.Initializing? ==>
              && w.active.Some? && Load(k.root, w, w.active.value) == Some(k.terminal) && k.terminal.runId != r
              && (r in w.initializers <==> p.Initializing?)
  {
    if p.Activated? { FreshLoads(k, r, w); }
    if p.LeafMade? || p.Initializing? { TerminalLoads(k, w); }
  }

  lemma InitializerStep(k: Context, r: RunId, p: Progress, w: World, w': World)
    requires Point(k, r, p, w) && r in w.leaves && r !in w.initializers && !p.Activated?
    requires w' == w.(initializers := w.initializers[r := P.Slot.Empty]) || w' == w
    ensures p == LeafMade && Point(k, r, if w' == w then p else Initializing(P.Slot.Empty), w')
  {
  }

  lemma InitializerPublished(k: Context, r: RunId, p: Progress, w: World, out: P.Outcome, slot: Slot, w': World)
    returns (q: Progress)
    requires Point(k, r, p, w) && r in w.initializers
    requires P.PublishStep(w.initializers[r], k.codec.encode(StateDoc(NewState(k.root, r))), out, slot)
    requires w' == w.(initializers := w.initializers[r := slot])
    ensures Point(k, r, q, w') && Stage(p) <= Stage(q) && !out.Rejected?
    ensures out == P.Outcome.Done ==> 3 <= Stage(q) && Load(k.root, w', DirOf(k.codec, slot)) == Some(NewState(k.root, r))
  {
    q := if p.Initializing? then Initializing(slot) else p;
    hide Load;
    var content := k.codec.encode(k.FreshDoc(r));
    if p.Initializing? {
      assert P.WriterSlot(slot, content);
      assert w' == At(k, r, P.Slot.Published(k.codec.encode(k.TxDoc(r))), q);
    } else {
      assert w.initializers[r] == P.Slot.Published(content);
      assert slot == P.Slot.Published(content);
      assert w' == w;
    }
    if out == P.Outcome.Done {
      assert DirOf(k.codec, slot) == FreshDirectory(k, r);
      FreshLoads(k, r, w');
    }
  }

  // ---------------------------------------------------------------- before, along and after

  /** Before the transaction is visible, nothing at all has been created but its staging file. */
  ghost predicate Started(k: Context, w: World) {
    && Clean(k)
    && w == k.start.(transaction := w.transaction)
    && (w.transaction.Empty?
        || (w.transaction.Staged? && forall r | Allocatable(k, r) :: |w.transaction.raw| <= |k.codec.encode(k.TxDoc(r))|))
  }

  /** The rollover is complete: the old journal archived as it was, sealed and receipted; the fresh
      journal active; no staging, initializer or transaction left. */
  ghost predicate Finished(k: Context, r: RunId, w: World) {
    && Clean(k) && Allocatable(k, r) && k.Sized()
    && w == At(k, r, P.Slot.Empty, Activated(P.Slot.Published(k.codec.encode(k.Slip(r)))))
  }

  /** From the first durable transaction on, for the run id it fixed. */
  ghost predicate Along(k: Context, r: RunId, w: World) {
    || Finished(k, r, w)
    || (exists p :: Point(k, r, p, w))
    || (Clean(k) && Allocatable(k, r) && w == At(k, r, P.Slot.Linked(k.codec.encode(k.TxDoc(r))), Allocated))
  }

  /** The journal is archived, but its archive breaks the inventory bounds. */
  ghost predicate Unsealed(k: Context, r: RunId, w: World) {
    Point(k, r, Archived(P.Slot.Empty), w) && !k.Sized()
  }

  /** What one call of the command may do, whether it returns, is refused or is cut short. */
  ghost predicate Call(k: Context, w: World, out: Outcome, w': World) {
    && (forall r | Along(k, r, w) ::
          && Along(k, r, w')
          && (Finished(k, r, w) ==> w' == w)
          && match out {
               case Done => Finished(k, r, w')
               case Crashed => true
               case Rejected(refusal) => refusal == BadInventory && Unsealed(k, r, w')
             }
          && (Unsealed(k, r, w) ==> w' == w))
    && (Started(k, w) ==>
          && (Started(k, w') || exists r :: Along(k, r, w'))
          && match out {
               case Done => exists r :: Finished(k, r, w')
               case Crashed => true
               case Rejected(refusal) => (refusal == NoRunId && w' == w) || (refusal == BadInventory && exists r :: Unsealed(k, r, w'))
             })
  }

  /** The run id of the first durable transaction, if there is one. */
  lemma CurrentRun(k: Context, w: World) returns (r: RunId, along: bool)
    ensures along ==> Along(k, r, w) && forall s | Along(k, s, w) :: s == r
    ensures !along ==> forall s :: !Along(k, s, w)
  {
    r, along := "", false;
    if s :| Along(k, s, w) {
      r, along := s, true;
      forall t | Along(k, t, w) ensures t == r { OneRun(k, r, t, w); }
    }
  }

  /** A world belongs to the rollover of one run id only: the one its transaction or receipt names. */
  lemma OneRun(k: Context, r: RunId, s: RunId, w: World)
    requires Along(k, r, w) && Along(k, s, w)
    ensures r == s
  {
    AlongByTransaction(k, r, w);
    AlongByTransaction(k, s, w);
    hide Along, Point, At;
    if w.transaction.Empty? {
      FinishedShape(k, r, w);
      FinishedShape(k, s, w);
      assert k.codec.decode(k.codec.encode(k.Slip(r))) == k.Slip(r) && k.codec.decode(k.codec.encode(k.Slip(s))) == k.Slip(s);
      assert k.Slip(r).receipt.newRunId == r && k.Slip(s).receipt.newRunId == s;
    } else {
      assert k.codec.decode(k.codec.encode(k.TxDoc(r))) == k.TxDoc(r) && k.codec.decode(k.codec.encode(k.TxDoc(s))) == k.TxDoc(s);
      assert k.TxDoc(r).transaction.newRunId == r && k.TxDoc(s).transaction.newRunId == s;
    }
  }

  lemma AtTransaction(k: Context, r: RunId, t: Slot, p: Progress)
    ensures At(k, r, t, p).transaction == t
  {
  }

  /** The transaction slot alone tells which part of the rollover a world belongs to. */
  lemma AlongByTransaction(k: Context, r: RunId, w: World)
    requires Along(k, r, w)
    ensures Clean(k) && Allocatable(k, r)
    ensures match w.transaction {
              case Empty => Finished(k, r, w)
              case Staged(_) => false
              case Linked(raw) =>
                raw == k.codec.encode(k.TxDoc(r)) && w == At(k, r, P.Slot.Linked(k.codec.encode(k.TxDoc(r))), Allocated)
              case Published(raw) => raw == k.codec.encode(k.TxDoc(r)) && exists p :: Point(k, r, p, w)
            }
  {
    hide At, Clean, WellPlaced, Allocatable;
    var raw := k.codec.encode(k.TxDoc(r));
    if p :| Point(k, r, p, w) {
      AtTransaction(k, r, P.Slot.Published(raw), p);
    } else if Finished(k, r, w) {
      AtTransaction(k, r, P.Slot.Empty, Activated(P.Slot.Published(k.codec.encode(k.Slip(r)))));
    } else {
      AtTransaction(k, r, P.Slot.Linked(raw), Allocated);
    }
  }

  lemma TransactionFits(k: Context, r: RunId)
    requires Clean(k) && Allocatable(k, r)
    ensures 0 < |k.codec.encode(k.TxDoc(r))| <= P.MAX_READ
  {
  }

  lemma LinkedBecomesPoint(k: Context, r: RunId, w: World)
    requires Clean(k) && Allocatable(k, r) && w == At(k, r, P.Slot.Linked(k.codec.encode(k.TxDoc(r))), Allocated)
    ensures Point(k, r, Allocated, w.(transaction := P.Slot.Published(k.codec.encode(k.TxDoc(r)))))
  {
  }

  lemma PointIsAlong(k: Context, r: RunId, p: Progress, w: World)
    requires Point(k, r, p, w)
    ensures Along(k, r, w)
  {
  }

  lemma UnsizedIsUnsealed(k: Context, r: RunId, p: Progress, w: World)
    requires Point(k, r, p, w) && 4 <= Stage(p) && !k.Sized()
    ensures p == Archived(P.Slot.Empty) && Unsealed(k, r, w)
  {
  }

  lemma UnsealedIsPoint(k: Context, r: RunId, p: Progress, w: World)
    requires Point(k, r, p, w) && Unsealed(k, r, w)
    ensures 4 <= Stage(p)
  {
  }

  /** A rollover of an over-large archive gets no further than the archive rename. */
  lemma PassedOn(k: Context, r: RunId, p: Progress, w: World, q: Progress, w': World)
    requires Point(k, r, p, w) && Point(k, r, q, w') && Stage(p) <= Stage(q)
    ensures Along(k, r, w')
    ensures Unsealed(k, r, w) ==> w' == w && Stage(q) < 5
    ensures 4 <= Stage(q) && !k.Sized() ==> Unsealed(k, r, w')
  {
    hide Point;
    PointIsAlong(k, r, q, w');
    if Unsealed(k, r, w) { UnsealedIsPoint(k, r, p, w); }
    if 4 <= Stage(q) && !k.Sized() { UnsizedIsUnsealed(k, r, q, w'); }
    if Unsealed(k, r, w) { SamePoint(k, r, w, w'); }
  }

  lemma SamePoint(k: Context, r: RunId, w: World, w': World)
    requires Unsealed(k, r, w) && Unsealed(k, r, w')
    ensures w == w'
  {
  }

  lemma StartFacts(k: Context, w: World)
    requires Started(k, w)
    ensures w.active == Some(k.journal) && Load(k.root, w, k.journal) == Some(k.terminal)
    ensures k.terminal.status == Aborted && k.terminal.stateDigest == Some(DigestState(k.terminal))
    ensures k.terminal.runId in w.leaves && w.leaves[k.terminal.runId] == Leaf(k.leaf, None, P.Slot.Empty, P.Slot.Empty)
    ensures w.leaves == k.start.leaves
  {
    TerminalLoads(k, w);
  }

  lemma AllocationStep(k: Context, r: RunId, w: World, out: P.Outcome, slot: Slot, w': World)
    requires Started(k, w) && Allocatable(k, r)
    requires P.PublishStep(w.transaction, k.codec.encode(k.TxDoc(r)), out, slot) && w' == w.(transaction := slot)
    ensures !out.Rejected?
    ensures out == P.Outcome.Done ==> Point(k, r, Allocated, w')
    ensures out == P.Outcome.Crashed ==> Started(k, w') || Along(k, r, w')
  {
    assert P.Admits(w.transaction, k.codec.encode(k.TxDoc(r)));
    if slot.Published? && slot.raw == k.codec.encode(k.TxDoc(r)) { assert Point(k, r, Allocated, w'); }
  }

  lemma TransactionReads(k: Context, r: RunId, p: Progress, w: World)
    requires Point(k, r, p, w)
    ensures ReadSlot(k.codec, w.transaction) == Some(k.TxDoc(r))
    ensures ValidTransaction(k.root, TransactionFor(k.root, k.terminal, r), k.terminal.runId, DigestState(k.terminal))
    ensures TransactionFor(k.root, k.terminal, r).newRunId == r
  {
    var t := TransactionFor(k.root, k.terminal, r);
    assert t.(transactionDigest := None).(transactionDigest := t.transactionDigest) == t;
    assert r != k.terminal.runId;
  }

  lemma RemovalStep(k: Context, r: RunId, p: Progress, w: World, w': World)
    requires Point(k, r, p, w) && 7 <= Stage(p)
    requires w' == w.(transaction := P.Slot.Empty) || w' == w
    ensures Along(k, r, w')
    ensures w' == w.(transaction := P.Slot.Empty) ==> Finished(k, r, w')
  {
    if w' == w { PointIsAlong(k, r, p, w); }
  }

  lemma StartIsValid(k: Context)
    requires Clean(k)
    ensures RunIdShape(k.terminal.runId)
  {
    TerminalLoads(k, k.start);
  }

  lemma EntryFacts(k: Context, r: RunId, w: World)
    requires Along(k, r, w) || Started(k, w)
    ensures RunIdShape(k.terminal.runId)
    ensures Started(k, w) ==>
              && P.TargetOf(w.transaction) == None && k.terminal.runId in w.leaves
              && P.TargetOf(w.leaves[k.terminal.runId].receipt) == None
    ensures Finished(k, r, w) ==> w.transaction.Empty?
  {
    if Along(k, r, w) { AlongByTransaction(k, r, w); }
    if Started(k, w) { StartFacts(k, w); }
    if Finished(k, r, w) { AtTransaction(k, r, P.Slot.Empty, Activated(P.Slot.Published(k.codec.encode(k.Slip(r))))); }
    StartIsValid(k);
    hide Along, At, Point, RunIdShape, Clean, Load;
  }

  lemma TransactionNormalized(k: Context, r: RunId, w: World, out: P.Outcome, slot: Slot, w': World)
    requires Along(k, r, w) && P.TargetOf(w.transaction).Some?
    requires P.NormalizeStep(w.transaction, P.MAX_NORMALIZE, out, slot) && w' == w.(transaction := slot)
    ensures Along(k, r, w') && !out.Rejected? && (out == P.Outcome.Done ==> w'.transaction.Published?)
    ensures Unsealed(k, r, w) ==> w' == w
  {
    AlongByTransaction(k, r, w);
    TransactionFits(k, r);
    if Unsealed(k, r, w) { UnsealedShape(k, r, w); }
    hide At, Clean, Point, Finished, Allocatable;
    if w.transaction.Linked? {
      LinkedBecomesPoint(k, r, w);
      if slot.Published? { PointIsAlong(k, r, Allocated, w'); }
    } else {
      assert w' == w;
    }
  }

  lemma TopReceiptNormalized(k: Context, r: RunId, w: World, out: P.Outcome, slot: Slot, w': World)
    requires Along(k, r, w) && !w.transaction.Linked? && k.terminal.runId in w.leaves
    requires var leaf := w.leaves[k.terminal.runId];
             && P.TargetOf(leaf.receipt).Some? && P.NormalizeStep(leaf.receipt, P.MAX_NORMALIZE, out, slot)
             && w' == w.(leaves := w.leaves[k.terminal.runId := leaf.(receipt := slot)])
    ensures Along(k, r, w') && !out.Rejected? && w'.transaction == w.transaction
    ensures w.transaction.Empty? ==> w' == w
    ensures !Unsealed(k, r, w)
  {
    hide Along, At, Clean, Point, Finished, Allocatable, ReadReceipt, Unsealed, P.NormalizeStep;
    if Unsealed(k, r, w) { UnsealedShape(k, r, w); }
    AlongByTransaction(k, r, w);
    if w.transaction.Empty? {
      FinishedReceiptStays(k, r, w, out, slot, w');
    } else {
      var p :| Point(k, r, p, w);
      ReceiptStage(k, r, p, w);
      var q := ReceiptNormalized(k, r, p, w, out, slot, w');
      PointIsAlong(k, r, q, w');
    }
  }

  lemma FinishedReceiptStays(k: Context, r: RunId, w: World, out: P.Outcome, slot: Slot, w': World)
    requires Finished(k, r, w) && k.terminal.runId in w.leaves
    requires P.NormalizeStep(w.leaves[k.terminal.runId].receipt, P.MAX_NORMALIZE, out, slot)
    requires w' == w.(leaves := w.leaves[k.terminal.runId := w.leaves[k.terminal.runId].(receipt := slot)])
    ensures w' == w && !out.Rejected?
  {
    FinishedShape(k, r, w);
    hide Finished;
    assert slot == w.leaves[k.terminal.runId].receipt;
    assert w.leaves[k.terminal.runId := w.leaves[k.terminal.runId]] == w.leaves;
  }

  lemma UnsealedShape(k: Context, r: RunId, w: World)
    requires Unsealed(k, r, w)
    ensures w.transaction.Published? && k.terminal.runId in w.leaves && w.leaves[k.terminal.runId].receipt.Empty?
    ensures Along(k, r, w) && !Finished(k, r, w)
  {
    assert k.terminal.runId != r;
  }

  lemma ReceiptStage(k: Context, r: RunId, p: Progress, w: World)
    requires Point(k, r, p, w) && k.terminal.runId in w.leaves && P.TargetOf(w.leaves[k.terminal.runId].receipt).Some?
    ensures 6 <= Stage(p)
  {
    assert k.terminal.runId != r;
  }

  lemma FinishedShape(k: Context, r: RunId, w: World)
    requires Finished(k, r, w)
    ensures k.terminal.runId in w.leaves && r in w.leaves && w.active == Some(FreshDirectory(k, r))
    ensures w.leaves[k.terminal.runId] == Leaf(k.leaf, Some(k.journal), P.Slot.Published(k.codec.encode(ManifestDoc(k.Sealed()))),
                                                P.Slot.Published(k.codec.encode(k.Slip(r))))
    ensures |k.codec.encode(k.Slip(r))| <= P.MAX_READ
  {
    hide Load, Admissible, Flatten, WithJournal, RunIdShape;
    assert k.terminal.runId != r;
  }

  /** A finished rollover reads back as one: asking again returns the same result and changes nothing. */
  lemma FinishedFacts(k: Context, r: RunId, w: World)
    requires Along(k, r, w) && P.TargetOf(w.transaction) == None
    ensures Finished(k, r, w) && k.terminal.runId in w.leaves
    ensures P.TargetOf(w.leaves[k.terminal.runId].receipt).Some?
    ensures var x := k.Slip(r).receipt;
            && ReadReceipt(k.root, k.codec, k.sortsBefore, w, k.terminal.runId, DigestState(k.terminal)) == Some(x)
            && w.active.Some? && Load(k.root, w, w.active.value) == Some(NewState(k.root, r))
            && NewState(k.root, r).runId == x.newRunId && NewState(k.root, r).stateDigest == Some(x.newStateDigest)
  {
    hide Along, Clean, ReadReceipt, Load, Point, At, Admissible, Flatten, RunIdShape, Finished, Context.Slip, NewState;
    AlongByTransaction(k, r, w);
    FinishedShape(k, r, w);
    assert k.Sized() by { FinishedIsAlong(k, r, w); }
    SlipReads(k, r, w);
    assert RunIdShape(r) by { AllocatableShape(k, r); }
    FreshLoads(k, r, w);
    SlipNames(k, r);
  }

  lemma AllocatableShape(k: Context, r: RunId)
    requires Allocatable(k, r)
    ensures RunIdShape(r)
  {
  }

  /** A receipt names its fresh journal. */
  lemma SlipNames(k: Context, r: RunId)
    requires RunIdShape(r)
    ensures k.Slip(r).ReceiptDoc?
    ensures var x := k.Slip(r).receipt; NewState(k.root, r).runId == x.newRunId && NewState(k.root, r).stateDigest == Some(x.newStateDigest)
  {
    FreshIsValid(k.root, r, map[], map[]);
  }

  lemma TransactionFacts(k: Context, r: RunId, w: World) returns (p: Progress)
    requires Along(k, r, w) && w.transaction.Published?
    ensures Point(k, r, p, w)
    ensures ReadSlot(k.codec, w.transaction) == Some(k.TxDoc(r))
    ensures ValidTransaction(k.root, TransactionFor(k.root, k.terminal, r), k.terminal.runId, DigestState(k.terminal))
    ensures TransactionFor(k.root, k.terminal, r).newRunId == r
  {
    AlongByTransaction(k, r, w);
    hide Along, At, Clean, Point, TransactionFor, RunIdShape;
    p :| Point(k, r, p, w);
    TransactionReads(k, r, p, w);
  }

  // ---------------------------------------------------------------- any number of calls and crashes

  /** From a clean root, any sequence of calls with the same arguments, each cut short anywhere or not. */
  ghost predicate Calls(k: Context, worlds: seq<World>, outs: seq<Outcome>) {
    && Clean(k) && |worlds| == |outs| + 1 && worlds[0] == k.start
    && forall i | 0 <= i < |outs| :: Call(k, worlds[i], outs[i], worlds[i + 1])
  }

  /** Every call finds the root untouched or along one rollover, and is never refused but for want of a
      run id before anything exists, or because the evidence breaks the inventory bounds. */
  lemma {:induction false} NeverStuck(k: Context, worlds: seq<World>, outs: seq<Outcome>, i: nat)
    requires Calls(k, worlds, outs) && i < |worlds|
    ensures Started(k, worlds[i]) || exists r :: Along(k, r, worlds[i])
    ensures i < |outs| && outs[i].Rejected? ==>
              || (outs[i].refusal == NoRunId && Started(k, worlds[i]) && worlds[i + 1] == worlds[i])
              || (outs[i].refusal == BadInventory && var after := worlds[i + 1]; exists r :: Unsealed(k, r, after))
  {
    hide Started, Along, Finished, Unsealed;
    if i == 0 {
      CleanIsStarted(k);
    } else {
      NeverStuck(k, worlds, outs, i - 1);
      assert Call(k, worlds[i - 1], outs[i - 1], worlds[i]);
    }
    if i < |outs| {
      assert Call(k, worlds[i], outs[i], worlds[i + 1]);
    }
  }

  lemma CleanIsStarted(k: Context)
    requires Clean(k)
    ensures Started(k, k.start)
  {
  }

  /** The run id of the first durable transaction is the run id of every later state. */
  lemma {:induction false} RunIdIsFixed(k: Context, worlds: seq<World>, outs: seq<Outcome>, r: RunId, i: nat, j: nat)
    requires Calls(k, worlds, outs) && i <= j < |worlds| && Along(k, r, worlds[i])
    ensures Along(k, r, worlds[j])
    ensures Finished(k, r, worlds[i]) ==> worlds[j] == worlds[i]
    decreases j
  {
    hide Started, Along, Finished;
    if i < j {
      RunIdIsFixed(k, worlds, outs, r, i, j - 1);
      assert Call(k, worlds[j - 1], outs[j - 1], worlds[j]);
    }
  }

  /** A call that returns has finished the rollover, for good; and none returns if the evidence breaks
      the inventory bounds. */
  lemma ReturnedMeansFinished(k: Context, worlds: seq<World>, outs: seq<Outcome>, i: nat, j: nat)
    requires Calls(k, worlds, outs) && i < j < |worlds| && outs[i] == Done
    ensures k.Sized()
    ensures var after := worlds[i + 1]; (exists r :: Finished(k, r, after)) && worlds[j] == after
  {
    hide Started, Along, Finished, Clean;
    NeverStuck(k, worlds, outs, i);
    assert Call(k, worlds[i], outs[i], worlds[i + 1]);
    var r :| Finished(k, r, worlds[i + 1]);
    FinishedIsAlong(k, r, worlds[i + 1]);
    RunIdIsFixed(k, worlds, outs, r, i + 1, j);
  }

  /** A call that finds a run id and is not cut short finishes exactly when the archive keeps the inventory
      bounds; otherwise the journal is archived, nothing is active, and every later call leaves it so. */
  lemma {:induction false} FinishesExactlyWhenSized(k: Context, worlds: seq<World>, outs: seq<Outcome>, i: nat, j: nat)
    requires Calls(k, worlds, outs) && i < j < |worlds| && outs[i] != Crashed && outs[i] != Rejected(NoRunId)
    ensures outs[i] == Done <==> k.Sized()
    ensures !k.Sized() ==>
              && outs[i] == Rejected(BadInventory)
              && var after := worlds[i + 1]; (exists r :: Unsealed(k, r, after)) && after.active == None && worlds[j] == after
    decreases j
  {
    hide Started, Along, Finished, Clean, Unsealed;
    if outs[i] == Done {
      ReturnedMeansFinished(k, worlds, outs, i, j);
    } else {
      NeverStuck(k, worlds, outs, i);
      var r :| Unsealed(k, r, worlds[i + 1]);
      UnsealedShape(k, r, worlds[i + 1]);
      UnsealedIsIdle(k, r, worlds[i + 1]);
      if i + 1 < j {
        FinishesExactlyWhenSized(k, worlds, outs, i, j - 1);
        assert Call(k, worlds[j - 1], outs[j - 1], worlds[j]);
      }
    }
  }

  lemma DoneMeansSized(k: Context, w: World, out: Outcome, w': World)
    requires Started(k, w) && Call(k, w, out, w') && out == Done
    ensures k.Sized()
  {
    hide Started, Along, Finished;
    var r :| Finished(k, r, w');
    FinishedIsAlong(k, r, w');
  }

  lemma UnsealedIsIdle(k: Context, r: RunId, w: World)
    requires Unsealed(k, r, w)
    ensures w.active == None && !k.Sized()
  {
  }

  lemma FinishedIsAlong(k: Context, r: RunId, w: World)
    requires Finished(k, r, w)
    ensures Along(k, r, w) && k.Sized()
  {
  }

  /** The finished rollover is one swap: beside the new, empty leaf, only the terminal leaf and the
      active directory differ from the start.  The old journal is retained entry for entry, any directory
      with the sealed inventory holds the same files, and the active journal is the fresh state. */
  lemma FinishedIsOneSwap(k: Context, r: RunId, w: World)
    requires Finished(k, r, w)
    ensures w.transaction.Empty? && w.initializers == map[] && w.leaves.Keys == k.start.leaves.Keys + {r}
    ensures forall id | id in k.start.leaves && id != k.terminal.runId :: w.leaves[id] == k.start.leaves[id]
    ensures w.leaves[k.terminal.runId].entries == k.leaf && w.leaves[k.terminal.runId].journal == Some(k.journal)
    ensures w.active.Some? && Load(k.root, w, w.active.value) == Some(NewState(k.root, r))
    ensures ReadManifest(k.codec, k.sortsBefore, w.leaves[k.terminal.runId], k.terminal.runId, DigestState(k.terminal)) == Some(k.Sealed())
    ensures forall other: Entries | Inventory(other, k.codec.SizeOf()) == Some(k.Sealed().files) ::
              Flatten(other, []) == Flatten(k.Archive(), [])
  {
    FinishedShape(k, r, w);
    FreshLoads(k, r, w);
    SealedReads(k, w.leaves[k.terminal.runId]);
    forall other: Entries | Inventory(other, k.codec.SizeOf()) == Some(k.Sealed().files)
      ensures Flatten(other, []) == Flatten(k.Archive(), [])
    {
      InventoryIsExact(k.Archive(), k.codec.SizeOf());
      InventoryDetermines(other, k.Archive(), k.codec.SizeOf());
    }
    assert k.terminal.runId != r;
    hide Load, ReadManifest, Inventory, Flatten, Admissible, Clean;
  }
}
