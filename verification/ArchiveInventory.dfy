/**
 The inventory of a retained evidence directory: a bounded depth-first walk in name order
 (deploy/scripts/active_edge_reboot_journal.py, `_archive_file_inventory`).
 */
module ArchiveInventory {
  import opened Options
  import opened RebootDocuments

  const MAX_FILE: int := 16 * 1024 * 1024
  const MAX_TOTAL: int := 64 * 1024 * 1024
  const MAX_FILES: int := 128

  /** A directory is the list of its entries in name order. */
  datatype Entries = Nil | Cons(name: FileName, node: Tree, rest: Entries)
  datatype Tree = FileNode(stored: Stored) | DirNode(entries: Entries)

  type Path = seq<FileName>
  datatype Found = Found(path: Path, stored: Stored)

  /** The regular files directly inside a directory. */
  function FilesOf(entries: Entries): Files {
    match entries
    case Nil => map[]
    case Cons(name, FileNode(stored), rest) => FilesOf(rest)[name := stored]
    case Cons(_, DirNode(_), rest) => FilesOf(rest)
  }

  /** The walk as written: it carries the list and the total so far and gives up at the first file
      that is unreadable or exceeds a bound. */
  function Visit(entries: Entries, directory: Path, sizeOf: Doc -> nat, files: seq<Entry>, total: nat): Option<(seq<Entry>, nat)>
    decreases entries
  {
    match entries
    case Nil => Some((files, total))
    case Cons(name, DirNode(inner), rest) =>
      var r := Visit(inner, directory + [name], sizeOf, files, total);
      if r == None then None else Visit(rest, directory, sizeOf, r.value.0, r.value.1)
    case Cons(name, FileNode(stored), rest) =>
      var size := sizeOf(stored.doc);
      if !stored.secure || !(1 <= size <= MAX_FILE) then None
      else if |files| >= MAX_FILES || total + size > MAX_TOTAL then None
      else Visit(rest, directory, sizeOf, files + [Entry(directory + [name], Of(stored.doc), size)], total + size)
  }

  /** Every file below a directory with its relative path, in the order of the walk. */
  function Flatten(entries: Entries, directory: Path): seq<Found>
    decreases entries
  {
    match entries
    case Nil => []
    case Cons(name, DirNode(inner), rest) => Flatten(inner, directory + [name]) + Flatten(rest, directory)
    case Cons(name, FileNode(stored), rest) => [Found(directory + [name], stored)] + Flatten(rest, directory)
  }

  function Listed(found: seq<Found>, sizeOf: Doc -> nat): seq<Entry> {
    seq(|found|, i requires 0 <= i < |found| => Entry(found[i].path, Of(found[i].stored.doc), sizeOf(found[i].stored.doc)))
  }

  function TotalSize(found: seq<Found>, sizeOf: Doc -> nat): nat {
    if found == [] then 0 else TotalSize(found[..|found| - 1], sizeOf) + sizeOf(found[|found| - 1].stored.doc)
  }

  /** What the inventory demands of a directory as a whole. */
  predicate Admissible(found: seq<Found>, sizeOf: Doc -> nat) {
    && (forall i | 0 <= i < |found| :: found[i].stored.secure && 1 <= sizeOf(found[i].stored.doc) <= MAX_FILE)
    && |found| <= MAX_FILES
    && TotalSize(found, sizeOf) <= MAX_TOTAL
  }

  lemma {:induction false} TotalOfConcat(a: seq<Found>, b: seq<Found>, sizeOf: Doc -> nat)
    ensures TotalSize(a + b, sizeOf) == TotalSize(a, sizeOf) + TotalSize(b, sizeOf)
    decreases |b|
  {
    if b == [] {
      assert a + b == a;
    } else {
      assert (a + b)[..|a + b| - 1] == a + b[..|b| - 1];
      TotalOfConcat(a, b[..|b| - 1], sizeOf);
    }
  }

  /** Stopping at the first offending file amounts to judging the directory as a whole, and the walk
      lists exactly the files below it. */
  lemma {:induction false} VisitIsFlatten(entries: Entries, directory: Path, sizeOf: Doc -> nat, seen: seq<Found>)
    requires Admissible(seen, sizeOf)
    ensures Visit(entries, directory, sizeOf, Listed(seen, sizeOf), TotalSize(seen, sizeOf))
         == Verdict(seen + Flatten(entries, directory), sizeOf)
    decreases entries
  {
    match entries {
      case Nil =>
        assert seen + Flatten(entries, directory) == seen;
      case Cons(name, DirNode(inner), rest) =>
        var here := Flatten(inner, directory + [name]);
        assert seen + Flatten(entries, directory) == (seen + here) + Flatten(rest, directory);
        VisitIsFlatten(inner, directory + [name], sizeOf, seen);
        if Admissible(seen + here, sizeOf) {
          VisitIsFlatten(rest, directory, sizeOf, seen + here);
        } else {
          AdmissiblePrefix(seen + here, Flatten(rest, directory), sizeOf);
        }
      case Cons(name, FileNode(stored), rest) =>
        var here := [Found(directory + [name], stored)];
        assert seen + Flatten(entries, directory) == (seen + here) + Flatten(rest, directory);
        OneMore(seen, here[0], sizeOf);
        if Admissible(seen + here, sizeOf) {
          VisitIsFlatten(rest, directory, sizeOf, seen + here);
        } else {
          AdmissiblePrefix(seen + here, Flatten(rest, directory), sizeOf);
        }
    }
  }

  function Verdict(all: seq<Found>, sizeOf: Doc -> nat): Option<(seq<Entry>, nat)> {
    if Admissible(all, sizeOf) then Some((Listed(all, sizeOf), TotalSize(all, sizeOf))) else None
  }

  lemma {:induction false} OneMore(seen: seq<Found>, one: Found, sizeOf: Doc -> nat)
    requires Admissible(seen, sizeOf)
    ensures Listed(seen + [one], sizeOf) == Listed(seen, sizeOf) + [Entry(one.path, Of(one.stored.doc), sizeOf(one.stored.doc))]
    ensures TotalSize(seen + [one], sizeOf) == TotalSize(seen, sizeOf) + sizeOf(one.stored.doc)
    ensures Admissible(seen + [one], sizeOf)
       <==> one.stored.secure && 1 <= sizeOf(one.stored.doc) <= MAX_FILE
            && |seen| < MAX_FILES && TotalSize(seen, sizeOf) + sizeOf(one.stored.doc) <= MAX_TOTAL
  {
    assert (seen + [one])[..|seen|] == seen;
    assert (seen + [one])[|seen|] == one;
  }

  lemma AdmissiblePrefix(a: seq<Found>, b: seq<Found>, sizeOf: Doc -> nat)
    requires !Admissible(a, sizeOf)
    ensures !Admissible(a + b, sizeOf)
  {
    TotalOfConcat(a, b, sizeOf);
    if i :| 0 <= i < |a| && !(a[i].stored.secure && 1 <= sizeOf(a[i].stored.doc) <= MAX_FILE) {
      assert (a + b)[i] == a[i];
    }
  }

  /** The inventory of a directory, or nothing when it is refused. */
  function Inventory(entries: Entries, sizeOf: Doc -> nat): Option<seq<Entry>> {
    var r := Visit(entries, [], sizeOf, [], 0);
    if r == None then None else Some(r.value.0)
  }

  /** The inventory is refused exactly when some file is unprotected or out of its size bound, or the
      files are too many or too large together; otherwise it lists every file once, by path,
      digest and size. */
  lemma InventoryIsExact(entries: Entries, sizeOf: Doc -> nat)
    ensures var all := Flatten(entries, []);
            Inventory(entries, sizeOf) == if Admissible(all, sizeOf) then Some(Listed(all, sizeOf)) else None
  {
    VisitIsFlatten(entries, [], sizeOf, []);
    assert [] + Flatten(entries, []) == Flatten(entries, []);
    assert Listed([], sizeOf) == [];
  }

  /** Two directories with one inventory hold the same bytes under the same paths. */
  lemma InventoryDetermines(a: Entries, b: Entries, sizeOf: Doc -> nat)
    requires Inventory(a, sizeOf).Some? && Inventory(a, sizeOf) == Inventory(b, sizeOf)
    ensures Flatten(a, []) == Flatten(b, [])
  {
    InventoryIsExact(a, sizeOf);
    InventoryIsExact(b, sizeOf);
    var fa, fb := Flatten(a, []), Flatten(b, []);
    assert |fa| == |Listed(fa, sizeOf)| == |fb|;
    forall i | 0 <= i < |fa| ensures fa[i] == fb[i] {
      assert Listed(fa, sizeOf)[i] == Listed(fb, sizeOf)[i];
    }
  }
}
