/** The memory store: fact files and the index that lists them, each operation two separate writes. */
module Memory {
  import opened Wrappers
  import opened Text

  datatype Kind = Semantic | Episodic | Procedural

  /** The order in which `read_fact` looks. */
  const KINDS: seq<Kind> := [Semantic, Episodic, Procedural]

  function Directory(kind: Kind): string {
    match kind
    case Semantic => "semantic"
    case Episodic => "episodic"
    case Procedural => "procedural"
  }

  function PathOf(kind: Kind, id: string): string { "memory/" + Directory(kind) + "/" + id + ".md" }

  datatype Entry = Entry(id: string, kind: Kind, path: string, meta: string)

  /** Fact files by directory and stem, and `index.json`. */
  datatype Disk = Disk(files: map<(Kind, string), string>, index: seq<Entry>)

  datatype Fact = Fact(kind: Kind, text: string)

  /** The first of the directories that has the file, read in text mode. */
  function ReadFrom(files: map<(Kind, string), string>, id: string, kinds: seq<Kind>): Option<Fact> {
    if kinds == [] then None
    else if (kinds[0], id) in files then Some(Fact(kinds[0], Translate(files[(kinds[0], id)])))
    else ReadFrom(files, id, kinds[1..])
  }

  function Read(d: Disk, id: string): Option<Fact> { ReadFrom(d.files, id, KINDS) }

  function Dropped(index: seq<Entry>, id: string): (r: seq<Entry>)
    ensures forall e :: e in r <==> e in index && e.id != id
  {
    if index == [] then []
    else if index[0].id == id then Dropped(index[1..], id)
    else [index[0]] + Dropped(index[1..], id)
  }

  function Unlinked(files: map<(Kind, string), string>, key: (Kind, string)): map<(Kind, string), string> {
    map k | k in files && k != key :: files[k]
  }

  // The two writes of each operation.

  function PutFile(d: Disk, kind: Kind, id: string, text: string): Disk { d.(files := d.files[(kind, id) := text]) }

  function Indexed(d: Disk, kind: Kind, id: string, meta: string): Disk {
    d.(index := Dropped(d.index, id) + [Entry(id, kind, PathOf(kind, id), meta)])
  }

  function Write(d: Disk, kind: Kind, id: string, text: string, meta: string): Disk {
    Indexed(PutFile(d, kind, id, text), kind, id, meta)
  }

  /** The file `read_fact` would find; nothing happens when there is none. */
  function RemoveFile(d: Disk, id: string): Disk {
    var found := Read(d, id);
    if found.None? then d else d.(files := Unlinked(d.files, (found.value.kind, id)))
  }

  function Delete(d: Disk, id: string): Disk {
    if Read(d, id).None? then d
    else
      var e := RemoveFile(d, id);
      e.(index := Dropped(e.index, id))
  }

  /** A file's path tells its memory type and its id. */
  lemma PathsApart(kind: Kind, id: string, other: Kind, another: string)
    ensures PathOf(kind, id) == PathOf(other, another) <==> kind == other && id == another
  {
    PathParts(kind, id);
    PathParts(other, another);
    var p, q, m, n := PathOf(kind, id), PathOf(other, another), |Directory(kind)|, |Directory(other)|;
    hide PathOf;
    assert p == q ==> p[7..7 + m][0] == q[7..7 + n][0];
  }

  lemma KnownPaths(id: string)
    ensures PathOf(Semantic, id) == "memory/semantic/" + id + ".md"
    ensures PathOf(Episodic, id) == "memory/episodic/" + id + ".md"
    ensures PathOf(Procedural, id) == "memory/procedural/" + id + ".md"
  {}

  lemma PathParts(kind: Kind, id: string)
    ensures var p, n := PathOf(kind, id), 8 + |Directory(kind)|;
      n <= |p| - 3 && p[7..n - 1] == Directory(kind) && p[n..|p| - 3] == id
  {
    hide Directory;
    var d, end := Directory(kind), id + ".md";
    var p, n := PathOf(kind, id), 8 + |d|;
    assert p == "memory/" + d + "/" + end;
    assert p[7..7 + |d|] == d && p[n..] == end;
    assert p[n..|p| - 3] == end[..|id|] == id;
  }

  // ---- Agreement ----------------------------------------------------------------------------

  ghost predicate DistinctIds(index: seq<Entry>) {
    forall i, j | 0 <= i < j < |index| :: index[i].id != index[j].id
  }

  ghost predicate Lists(index: seq<Entry>, kind: Kind, id: string) {
    exists e :: e in index && e.id == id && e.kind == kind
  }

  /** Entries and files of this id match one to one, with the right path. */
  ghost predicate AgreesOn(d: Disk, id: string) {
    && (forall kind :: Lists(d.index, kind, id) <==> (kind, id) in d.files)
    && (forall e | e in d.index && e.id == id :: e.path == PathOf(e.kind, id))
  }

  ghost predicate Agrees(d: Disk) { DistinctIds(d.index) && forall id :: AgreesOn(d, id) }

  /** No file of this id in another directory. */
  ghost predicate Unclaimed(d: Disk, kind: Kind, id: string) {
    forall other | other != kind :: (other, id) !in d.files
  }

  lemma {:induction false} DroppedDistinct(index: seq<Entry>, id: string)
    requires DistinctIds(index)
    ensures DistinctIds(Dropped(index, id))
    decreases |index|
  {
    if index != [] {
      DroppedDistinct(index[1..], id);
      if index[0].id != id {
        var tail := Dropped(index[1..], id);
        forall j | 0 <= j < |tail| ensures tail[j].id != index[0].id {
          assert tail[j] in index[1..];
        }
      }
    }
  }

  lemma DistinctOne(index: seq<Entry>, e: Entry, f: Entry)
    requires DistinctIds(index) && e in index && f in index && e.id == f.id
    ensures e == f
  {
    var i :| 0 <= i < |index| && index[i] == e;
    var j :| 0 <= j < |index| && index[j] == f;
    assert i == j;
  }

  /** Agreement leaves at most one file per id. */
  lemma OneFilePerId(d: Disk, k: Kind, l: Kind, id: string)
    requires Agrees(d) && (k, id) in d.files && (l, id) in d.files
    ensures k == l
  {
    assert AgreesOn(d, id);
    assert Lists(d.index, k, id) && Lists(d.index, l, id);
    var e :| e in d.index && e.id == id && e.kind == k;
    var f :| f in d.index && f.id == id && f.kind == l;
    DistinctOne(d.index, e, f);
  }

  /** What an operation does to other ids: nothing. */
  lemma OthersAgree(d: Disk, e: Disk, id: string, more: seq<Entry>)
    requires e.index == Dropped(d.index, id) + more && forall m | m in more :: m.id == id
    requires forall k: (Kind, string) | k.1 != id :: k in d.files <==> k in e.files
    ensures forall other | other != id :: AgreesOn(d, other) <==> AgreesOn(e, other)
  {
    forall other, kind | other != id ensures Lists(d.index, kind, other) <==> Lists(e.index, kind, other) {
      if Lists(d.index, kind, other) {
        var x :| x in d.index && x.id == other && x.kind == kind;
        assert x in e.index;
      }
    }
    forall other: string, kind: Kind | other != id ensures (kind, other) in d.files <==> (kind, other) in e.files {
      assert (kind, other).1 == other;
    }
    forall x: Entry | x.id != id ensures x in d.index <==> x in e.index {}
  }

  /** `write_fact` keeps the index in agreement with the files if and only if the id has no file
      under another memory type. */
  lemma WriteAgrees(d: Disk, kind: Kind, id: string, text: string, meta: string)
    requires Agrees(d)
    ensures Agrees(Write(d, kind, id, text, meta)) <==> Unclaimed(d, kind, id)
  {
    var e := Write(d, kind, id, text, meta);
    var entry := Entry(id, kind, PathOf(kind, id), meta);
    DroppedDistinct(d.index, id);
    OthersAgree(d, e, id, [entry]);
    assert entry in e.index;
    forall k: Kind ensures Lists(e.index, k, id) <==> k == kind {
      if Lists(e.index, k, id) { var x :| x in e.index && x.id == id && x.kind == k; }
    }
    if Unclaimed(d, kind, id) {
      assert AgreesOn(e, id);
    } else {
      var other :| other != kind && (other, id) in d.files;
      assert (other, id) in e.files && !Lists(e.index, other, id);
      assert !AgreesOn(e, id);
    }
  }

  lemma {:induction false} ReadsFirst(files: map<(Kind, string), string>, id: string, kinds: seq<Kind>)
    ensures var r := ReadFrom(files, id, kinds);
      if r.Some? then r.value.kind in kinds && (r.value.kind, id) in files && r.value.text == Translate(files[(r.value.kind, id)])
      else forall k | k in kinds :: (k, id) !in files
    decreases |kinds|
  {
    if kinds != [] { ReadsFirst(files, id, kinds[1..]); }
  }

  lemma AllKinds(k: Kind)
    ensures k in KINDS
  {
    assert KINDS[0] == Semantic && KINDS[1] == Episodic && KINDS[2] == Procedural;
  }

  /** Semantic facts are found before episodic ones and those before procedural ones; none is found
      only where there is none. */
  lemma ReadFinds(d: Disk, id: string)
    ensures (Semantic, id) in d.files ==> Read(d, id).Some? && Read(d, id).value.kind == Semantic
    ensures Read(d, id).Some? && Read(d, id).value.kind == Procedural ==> (Episodic, id) !in d.files
    ensures Read(d, id).None? <==> forall k: Kind :: (k, id) !in d.files
    ensures Read(d, id).Some? ==>
      (Read(d, id).value.kind, id) in d.files && Read(d, id).value.text == Translate(d.files[(Read(d, id).value.kind, id)])
  {
    ReadsFirst(d.files, id, KINDS);
    forall k: Kind ensures k in KINDS { AllKinds(k); }
    var later := [Episodic, Procedural];
    assert KINDS[0] == Semantic && KINDS[1..] == later && later[0] == Episodic;
  }

  /** `delete_fact` keeps agreement, always. */
  lemma DeleteAgrees(d: Disk, id: string)
    requires Agrees(d)
    ensures Agrees(Delete(d, id)) && Read(Delete(d, id), id) == None
    ensures forall k: Kind :: (k, id) !in Delete(d, id).files
  {
    ReadFinds(d, id);
    ReadFinds(Delete(d, id), id);
    if Read(d, id).Some? {
      var e, kind := Delete(d, id), Read(d, id).value.kind;
      DroppedDistinct(d.index, id);
      OthersAgree(d, e, id, []);
      forall k: Kind ensures (k, id) !in e.files {
        if (k, id) in d.files { OneFilePerId(d, k, kind, id); }
      }
      assert AgreesOn(e, id);
    }
  }

  // ---- Whole runs ---------------------------------------------------------------------------

  datatype Op = WriteOp(kind: Kind, id: string, text: string, meta: string) | DeleteOp(id: string)

  function Do(d: Disk, op: Op): Disk {
    match op
    case WriteOp(kind, id, text, meta) => Write(d, kind, id, text, meta)
    case DeleteOp(id) => Delete(d, id)
  }

  function DoAll(ops: seq<Op>): Disk {
    if ops == [] then Disk(map[], []) else Do(DoAll(ops[..|ops| - 1]), ops[|ops| - 1])
  }

  /** The guard of one operation: nothing to ask of a deletion. */
  ghost predicate Guarded(d: Disk, op: Op) { op.WriteOp? ==> Unclaimed(d, op.kind, op.id) }

  ghost predicate AllGuarded(ops: seq<Op>) {
    forall i | 0 <= i < |ops| :: Guarded(DoAll(ops[..i]), ops[i])
  }

  ghost predicate AgreesThroughout(ops: seq<Op>) { forall i | 0 <= i <= |ops| :: Agrees(DoAll(ops[..i])) }

  lemma EmptyAgrees()
    ensures Agrees(DoAll([]))
  {}

  lemma PrefixStep(ops: seq<Op>, i: nat)
    requires i < |ops|
    ensures DoAll(ops[..i + 1]) == Do(DoAll(ops[..i]), ops[i])
  {
    assert ops[..i + 1][..i] == ops[..i];
  }

  lemma DoAgrees(d: Disk, op: Op)
    requires Agrees(d)
    ensures Agrees(Do(d, op)) <==> Guarded(d, op)
  {
    hide Agrees, Unclaimed;
    match op
    case WriteOp(kind, id, text, meta) => WriteAgrees(d, kind, id, text, meta);
    case DeleteOp(id) => DeleteAgrees(d, id);
  }

  lemma {:induction false} GuardedAgrees(ops: seq<Op>, i: nat)
    requires AllGuarded(ops) && i <= |ops|
    ensures Agrees(DoAll(ops[..i]))
  {
    hide Agrees, Guarded, Do, DoAll;
    if i == 0 {
      EmptyAgrees();
      assert ops[..0] == [];
    } else {
      GuardedAgrees(ops, i - 1);
      PrefixStep(ops, i - 1);
      DoAgrees(DoAll(ops[..i - 1]), ops[i - 1]);
    }
  }

  /** Index and files agree after every operation of a run if and only if no write of the run
      finds its id under another memory type. */
  lemma IndexAgrees(ops: seq<Op>)
    ensures AgreesThroughout(ops) <==> AllGuarded(ops)
  {
    hide Agrees, Guarded, Do, DoAll;
    if AllGuarded(ops) {
      forall i | 0 <= i <= |ops| ensures Agrees(DoAll(ops[..i])) { GuardedAgrees(ops, i); }
    }
    if AgreesThroughout(ops) {
      forall i | 0 <= i < |ops| ensures Guarded(DoAll(ops[..i]), ops[i]) {
        assert Agrees(DoAll(ops[..i])) && Agrees(DoAll(ops[..i + 1]));
        PrefixStep(ops, i);
        DoAgrees(DoAll(ops[..i]), ops[i]);
      }
    }
  }

  ghost predicate OneKindEach(ops: seq<Op>) {
    forall i, j | 0 <= i < |ops| && 0 <= j < |ops| && ops[i].WriteOp? && ops[j].WriteOp? ::
      ops[i].id == ops[j].id ==> ops[i].kind == ops[j].kind
  }

  lemma {:induction false} FilesCome(ops: seq<Op>, n: nat, kind: Kind, id: string) returns (i: nat)
    requires n <= |ops| && (kind, id) in DoAll(ops[..n]).files
    ensures i < n && ops[i].WriteOp? && ops[i].kind == kind && ops[i].id == id
  {
    hide DoAll;
    i := 0;
    EmptyFiles(ops[..0]);
    if n > 0 {
      PrefixStep(ops, n - 1);
      var d, op := DoAll(ops[..n - 1]), ops[n - 1];
      if op.WriteOp? && op.kind == kind && op.id == id {
        i := n - 1;
      } else {
        assert (kind, id) in d.files;
        i := FilesCome(ops, n - 1, kind, id);
      }
    }
  }

  lemma EmptyFiles(ops: seq<Op>)
    ensures ops == [] ==> DoAll(ops).files == map[]
  {}

  /** Using each id with one memory type is enough. */
  lemma OneKindAgrees(ops: seq<Op>)
    requires OneKindEach(ops)
    ensures AgreesThroughout(ops)
  {
    hide AgreesThroughout, DoAll;
    forall i | 0 <= i < |ops| ensures Guarded(DoAll(ops[..i]), ops[i]) {
      if ops[i].WriteOp? {
        forall other | other != ops[i].kind ensures (other, ops[i].id) !in DoAll(ops[..i]).files {
          if (other, ops[i].id) in DoAll(ops[..i]).files {
            var j := FilesCome(ops, i, other, ops[i].id);
          }
        }
      }
    }
    IndexAgrees(ops);
  }

  // ---- Crashes ------------------------------------------------------------------------------

  /** Between its two writes an operation has disturbed no id but its own. */
  lemma CrashTouchesOne(d: Disk, kind: Kind, id: string, text: string, other: string)
    requires Agrees(d) && other != id
    ensures AgreesOn(PutFile(d, kind, id, text), other) && AgreesOn(RemoveFile(d, id), other)
    ensures DistinctIds(PutFile(d, kind, id, text).index) && DistinctIds(RemoveFile(d, id).index)
  {
    assert AgreesOn(d, other);
  }

  /** A write cut short is repaired by the same write. */
  lemma RetriedWriteRepairs(d: Disk, kind: Kind, id: string, text: string, meta: string)
    ensures Write(PutFile(d, kind, id, text), kind, id, text, meta) == Write(d, kind, id, text, meta)
  {}

  /** A deletion cut short is not repaired by the same deletion: it finds no file and returns, and
      the entry of the deleted fact stays. Writing the id again does repair it. */
  lemma RetriedDeleteDoesNot(d: Disk, id: string, kind: Kind, text: string, meta: string)
    requires Agrees(d) && Read(d, id).Some?
    ensures var e := RemoveFile(d, id);
      && Delete(e, id) == e && !Agrees(e)
      && Agrees(Write(e, kind, id, text, meta))
  {
    var e := RemoveFile(d, id);
    ReadFinds(d, id);
    ReadFinds(e, id);
    var k := Read(d, id).value.kind;
    forall l: Kind ensures (l, id) !in e.files {
      if (l, id) in d.files { OneFilePerId(d, l, k, id); }
    }
    assert AgreesOn(d, id) && Lists(d.index, k, id);
    assert !AgreesOn(e, id);
    DeleteAgrees(d, id);
    WriteAgrees(Delete(d, id), kind, id, text, meta);
    DropTwice(d.index, id);
    assert Write(e, kind, id, text, meta) == Write(Delete(d, id), kind, id, text, meta);
  }

  lemma {:induction false} DropTwice(index: seq<Entry>, id: string)
    ensures Dropped(Dropped(index, id), id) == Dropped(index, id)
    decreases |index|
  {
    if index != [] { DropTwice(index[1..], id); }
  }

  lemma {:induction false} DroppedAll(index: seq<Entry>, id: string)
    requires forall e | e in index :: e.id == id
    ensures Dropped(index, id) == []
    decreases |index|
  {
    if index != [] { DroppedAll(index[1..], id); }
  }

  /** A write under a second type: the file is there, the index has forgotten the first one, and
      one deletion removes the other file. */
  lemma TwoTypesDisagree(id: string, text: string, meta: string)
    ensures var ops := [WriteOp(Semantic, id, text, meta), WriteOp(Episodic, id, text, meta), DeleteOp(id)];
      var d := DoAll(ops);
      && !Agrees(DoAll(ops[..2])) && (Episodic, id) in d.files && d.index == []
  {
    var w1, w2 := WriteOp(Semantic, id, text, meta), WriteOp(Episodic, id, text, meta);
    var ops := [w1, w2, DeleteOp(id)];
    PrefixStep(ops, 0);
    PrefixStep(ops, 1);
    PrefixStep(ops, 2);
    assert ops[..0] == [] && ops[..3] == ops;
    EmptyAgrees();
    var d1 := DoAll(ops[..1]);
    WriteAgrees(DoAll([]), Semantic, id, text, meta);
    WriteAgrees(d1, Episodic, id, text, meta);
    assert (Semantic, id) in d1.files;
    assert !Unclaimed(d1, Episodic, id);
    assert KINDS[0] == Semantic;
    var d2 := DoAll(ops[..2]);
    var d := DoAll(ops);
    assert d.index == Dropped(d2.index, id);
    DroppedAll(d2.index, id);
  }

  // ---- Reading back -------------------------------------------------------------------------

  /** What was written is what is read, up to the translation of its line breaks, while no other
      type holds the id. */
  lemma ReadsWhatWasWritten(d: Disk, kind: Kind, id: string, text: string, meta: string)
    requires Unclaimed(d, kind, id)
    ensures Read(Write(d, kind, id, text, meta), id) == Some(Fact(kind, Translate(text)))
    ensures forall other | other != id :: Read(Write(d, kind, id, text, meta), other) == Read(d, other)
  {
    var e := Write(d, kind, id, text, meta);
    ReadFinds(e, id);
    assert (kind, id) in e.files;
    assert KINDS == [Semantic, Episodic, Procedural];
    forall other | other != id ensures Read(e, other) == Read(d, other) { SameReads(d.files, e.files, other, KINDS); }
  }

  lemma {:induction false} SameReads(
      files: map<(Kind, string), string>, other: map<(Kind, string), string>, id: string, kinds: seq<Kind>)
    requires forall k: Kind :: (k, id) in files <==> (k, id) in other
    requires forall k: Kind :: (k, id) in files ==> files[(k, id)] == other[(k, id)]
    ensures ReadFrom(files, id, kinds) == ReadFrom(other, id, kinds)
    decreases |kinds|
  {
    if kinds != [] { SameReads(files, other, id, kinds[1..]); }
  }
}
