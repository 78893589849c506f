/** Immutable object storage: the in-memory driver, and the filesystem driver as a
    protocol between any number of writers and readers of one key. */
module Storage {
  import opened Prelude

  type Bytes = seq<int>

  datatype PayloadError =
    | InvalidInput
    | MissingObject
    | ImmutableConflict
    | IntegrityMismatch
    | SizeLimit
    | UnknownStorage
    | PipelineMismatch
    | UnknownCodec
    | MalformedReference
    | Codec
    | Io

  // ---------- Object keys ----------

  /** An object id in its canonical form: 32 lowercase hexadecimal characters. */
  predicate IsObjectId(id: string) {
    |id| == 32 && forall i :: 0 <= i < |id| ==> '0' <= id[i] <= '9' || 'a' <= id[i] <= 'f'
  }

  type ObjectId = id: string | IsObjectId(id) witness "00000000000000000000000000000000"

  function KeyFor(id: ObjectId): string {
    "v1/objects/" + id[..3] + "/" + id
  }

  /** Distinct objects live under distinct keys. */
  lemma KeysAreInjective(a: ObjectId, b: ObjectId)
    requires KeyFor(a) == KeyFor(b)
    ensures a == b
  {
    assert KeyFor(a)[15..] == a && KeyFor(b)[15..] == b;
  }

  // ---------- The in-memory driver ----------

  type Objects = map<string, Bytes>

  function Create(objects: Objects, key: string, bytes: Bytes): Result<Objects, PayloadError> {
    if key !in objects then Ok(objects[key := bytes])
    else if objects[key] == bytes then Ok(objects)
    else Err(ImmutableConflict)
  }

  function Read(objects: Objects, key: string, maxBytes: nat): Result<Bytes, PayloadError> {
    if key !in objects then Err(MissingObject)
    else if |objects[key]| > maxBytes then Err(SizeLimit)
    else Ok(objects[key])
  }

  /** Nothing stored is ever changed or lost. */
  predicate Retains(before: Objects, after: Objects) {
    forall key :: key in before ==> key in after && after[key] == before[key]
  }

  class InMemoryStorage {
    var objects: Objects

    constructor ()
      ensures objects == map[]
    {
      objects := map[];
    }

    method CreateImmutable(key: string, bytes: Bytes) returns (r: Result<(), PayloadError>)
      modifies this
      ensures Retains(old(objects), objects)
      ensures r.Ok? <==> (key in old(objects) ==> old(objects)[key] == bytes)
      ensures r.Ok? ==> objects == old(objects)[key := bytes]
      ensures r.Err? ==> r.error == ImmutableConflict && objects == old(objects)
    {
      if key in objects {
        if objects[key] == bytes {
          assert objects == objects[key := bytes];
          return Ok(());
        }
        return Err(ImmutableConflict);
      }
      objects := objects[key := bytes];
      return Ok(());
    }

    method ReadObject(key: string, maxBytes: nat) returns (r: Result<Bytes, PayloadError>)
      ensures r == Read(objects, key, maxBytes)
    {
      if key !in objects {
        return Err(MissingObject);
      }
      if |objects[key]| > maxBytes {
        return Err(SizeLimit);
      }
      return Ok(objects[key]);
    }
  }
}

/** `FilesystemStorage`: every `create_immutable` writes a private temporary file, syncs it,
    and publishes it with a hard link that fails if the name exists. Actors are
    interleaved step by step, may fail at any system call, and may crash anywhere. */
module ImmutableFiles {
  import opened Prelude
  import opened Storage

  type Actor = nat
  type Inode = nat

  /** A file's contents, and whether they have been synced. */
  datatype File = File(bytes: Bytes, synced: bool)

  datatype WriterPhase =
    | Start
    | Writing(temp: Inode, written: nat)
    | Synced(temp: Inode)
    | Comparing(temp: Inode)
    | CleaningUp(temp: Inode, result: Result<(), PayloadError>)
    | Returned(result: Result<(), PayloadError>)
    | Crashed

  datatype ReaderPhase =
    | Idle
    | Opened(file: Inode)
    | Finished(result: Result<Bytes, PayloadError>)

  datatype Writer = Writer(bytes: Bytes, phase: WriterPhase)

  datatype Reader = Reader(maxBytes: nat, phase: ReaderPhase)

  /** The directory as far as one key is concerned: file contents by inode, the key's
      directory entry, and each live writer's own temporary entry. Temporary names are
      random, so each writer has one of its own; two writers never share it. */
  datatype Disk = Disk(
    files: map<Inode, File>,
    entry: Option<Inode>,
    temps: map<Actor, Inode>,
    writers: map<Actor, Writer>,
    readers: map<Actor, Reader>)

  predicate Init(d: Disk) {
    && d.files == map[] && d.entry.None? && d.temps == map[]
    && (forall w :: w in d.writers ==> d.writers[w].phase == Start)
    && (forall r :: r in d.readers ==> d.readers[r].phase == Idle)
  }

  function SetPhase(d: Disk, w: Actor, phase: WriterPhase): Disk
    requires w in d.writers
  {
    d.(writers := d.writers[w := d.writers[w].(phase := phase)])
  }

  /** The temporary file a writer's phase refers to. */
  function TempOf(phase: WriterPhase): Option<Inode> {
    match phase
    case Writing(temp, _) => Some(temp)
    case Synced(temp) => Some(temp)
    case Comparing(temp) => Some(temp)
    case CleaningUp(temp, _) => Some(temp)
    case _ => None
  }

  // ---------- Steps ----------

  /** `create_new` on the temporary name: a fresh inode, empty and unsynced. */
  predicate Open(d: Disk, e: Disk, w: Actor, temp: Inode) {
    && w in d.writers && d.writers[w].phase == Start
    && temp !in d.files && w !in d.temps
    && e == SetPhase(d, w, Writing(temp, 0)).(files := d.files[temp := File([], false)], temps := d.temps[w := temp])
  }

  /** One `write` of the next `n` bytes; `write_all` issues as many as it needs. */
  predicate Write(d: Disk, e: Disk, w: Actor, n: nat) {
    && w in d.writers && d.writers[w].phase.Writing?
    && var phase := d.writers[w].phase;
    && phase.temp in d.files
    && phase.written + n <= |d.writers[w].bytes|
    && e == SetPhase(d, w, Writing(phase.temp, phase.written + n)).(
              files := d.files[phase.temp := File(
                  d.files[phase.temp].bytes + d.writers[w].bytes[phase.written..phase.written + n], false)])
  }

  predicate Sync(d: Disk, e: Disk, w: Actor) {
    && w in d.writers && d.writers[w].phase.Writing?
    && var phase := d.writers[w].phase;
    && phase.temp in d.files
    && phase.written == |d.writers[w].bytes|
    && e == SetPhase(d, w, Synced(phase.temp)).(files := d.files[phase.temp := d.files[phase.temp].(synced := true)])
  }

  /** `hard_link`: atomically binds the key to the temporary's inode unless it is bound. */
  predicate Link(d: Disk, e: Disk, w: Actor) {
    && w in d.writers && d.writers[w].phase.Synced?
    && var temp := d.writers[w].phase.temp;
    && e == if d.entry.None? then SetPhase(d, w, CleaningUp(temp, Ok(()))).(entry := Some(temp))
            else SetPhase(d, w, Comparing(temp))
  }

  /** `compare_existing`: reads whatever the key is bound to. */
  predicate Compare(d: Disk, e: Disk, w: Actor) {
    && w in d.writers && d.writers[w].phase.Comparing?
    && var temp := d.writers[w].phase.temp;
    && e == SetPhase(d, w, CleaningUp(temp,
                if d.entry.None? || d.entry.value !in d.files then Err(MissingObject)
                else if d.files[d.entry.value].bytes == d.writers[w].bytes then Ok(())
                else Err(ImmutableConflict)))
  }

  /** Any system call of the closure may fail; cleanup still follows. */
  predicate Fault(d: Disk, e: Disk, w: Actor) {
    && w in d.writers
    && match d.writers[w].phase
       case Start => e == SetPhase(d, w, Returned(Err(Io)))
       case Writing(temp, _) => e == SetPhase(d, w, CleaningUp(temp, Err(Io)))
       case Synced(temp) => e == SetPhase(d, w, CleaningUp(temp, Err(Io)))
       case Comparing(temp) => e == SetPhase(d, w, CleaningUp(temp, Err(Io)))
       case _ => false
  }

  /** `remove_file` on the temporary name. If it fails, a success becomes an error. */
  predicate Remove(d: Disk, e: Disk, w: Actor, removed: bool) {
    && w in d.writers && d.writers[w].phase.CleaningUp?
    && var result := d.writers[w].phase.result;
    && e == if removed then SetPhase(d, w, Returned(result)).(temps := d.temps - {w})
            else SetPhase(d, w, Returned(if result.Ok? then Err(Io) else result))
  }

  /** A writer dies. Bytes it never synced may be lost or garbled; synced bytes are not. */
  predicate Crash(d: Disk, e: Disk, w: Actor, remains: Bytes) {
    && w in d.writers && !d.writers[w].phase.Returned?
    && var temp := TempOf(d.writers[w].phase);
    && e == SetPhase(d, w, Crashed).(
              files := if temp.Some? && temp.value in d.files && !d.files[temp.value].synced
                       then d.files[temp.value := File(remains, false)] else d.files)
  }

  predicate OpenForRead(d: Disk, e: Disk, r: Actor) {
    && r in d.readers && d.readers[r].phase.Idle?
    && e == d.(readers := d.readers[r := d.readers[r].(
                 phase := if d.entry.None? then Finished(Err(MissingObject)) else Opened(d.entry.value))])
  }

  predicate ReadOpened(d: Disk, e: Disk, r: Actor, fault: bool) {
    && r in d.readers && d.readers[r].phase.Opened?
    && var file := d.readers[r].phase.file;
    && file in d.files
    && e == d.(readers := d.readers[r := d.readers[r].(
                 phase := Finished(if fault then Err(Io)
                                   else if |d.files[file].bytes| > d.readers[r].maxBytes then Err(SizeLimit)
                                   else Ok(d.files[file].bytes)))])
  }

  datatype Action =
    | DoOpen(w: Actor, temp: Inode)
    | DoWrite(w: Actor, n: nat)
    | DoSync(w: Actor)
    | DoLink(w: Actor)
    | DoCompare(w: Actor)
    | DoFault(w: Actor)
    | DoRemove(w: Actor, removed: bool)
    | DoCrash(w: Actor, remains: Bytes)
    | DoOpenForRead(r: Actor)
    | DoRead(r: Actor, fault: bool)

  predicate Next(d: Disk, e: Disk, a: Action) {
    match a
    case DoOpen(w, temp) => Open(d, e, w, temp)
    case DoWrite(w, n) => Write(d, e, w, n)
    case DoSync(w) => Sync(d, e, w)
    case DoLink(w) => Link(d, e, w)
    case DoCompare(w) => Compare(d, e, w)
    case DoFault(w) => Fault(d, e, w)
    case DoRemove(w, removed) => Remove(d, e, w, removed)
    case DoCrash(w, remains) => Crash(d, e, w, remains)
    case DoOpenForRead(r) => OpenForRead(d, e, r)
    case DoRead(r, fault) => ReadOpened(d, e, r, fault)
  }

  // ---------- What every step keeps ----------

  /** A file holding exactly these bytes, for good. */
  predicate Sealed(d: Disk, file: Inode, bytes: Bytes) {
    file in d.files && d.files[file] == File(bytes, true)
  }

  ghost predicate SomeonesBytes(d: Disk, bytes: Bytes) {
    exists w :: w in d.writers && d.writers[w].bytes == bytes
  }

  /** The object the key is bound to, if any. */
  function Published(d: Disk): Option<Bytes> {
    if d.entry.Some? && d.entry.value in d.files then Some(d.files[d.entry.value].bytes) else None
  }

  /** A result a writer may hold: success means the key holds its bytes, a conflict that
      it holds different ones, and the key can never have gone missing meanwhile. */
  predicate ResultOk(d: Disk, bytes: Bytes, result: Result<(), PayloadError>) {
    match result
    case Ok(_) => Published(d) == Some(bytes)
    case Err(ImmutableConflict) => Published(d).Some? && Published(d).value != bytes
    case Err(error) => error == Io
  }

  predicate WriterOk(d: Disk, w: Actor)
    requires w in d.writers
  {
    var bytes := d.writers[w].bytes;
    match d.writers[w].phase
    case Start => w !in d.temps
    case Writing(temp, written) =>
      && temp in d.files && w in d.temps && d.temps[w] == temp && d.entry != Some(temp)
      && written <= |bytes| && d.files[temp] == File(bytes[..written], false)
    case Synced(temp) => w in d.temps && d.temps[w] == temp && Sealed(d, temp, bytes)
    case Comparing(temp) => w in d.temps && d.temps[w] == temp && Sealed(d, temp, bytes) && d.entry.Some?
    case CleaningUp(temp, result) =>
      w in d.temps && d.temps[w] == temp && ResultOk(d, bytes, result)
    case Returned(result) => ResultOk(d, bytes, result)
    case Crashed => true
  }

  predicate ReaderOk(d: Disk, r: Actor)
    requires r in d.readers
  {
    match d.readers[r].phase
    case Idle => true
    case Opened(file) => d.entry == Some(file)
    case Finished(result) =>
      result.Ok? ==> Published(d) == Some(result.value) && |result.value| <= d.readers[r].maxBytes
  }

  ghost predicate Inv(d: Disk) {
    && (forall w :: w in d.writers ==> WriterOk(d, w))
    && (forall r :: r in d.readers ==> ReaderOk(d, r))
    && (forall w :: w in d.temps ==> w in d.writers && d.temps[w] in d.files)
    && (forall v, w :: v in d.temps && w in d.temps && v != w ==> d.temps[v] != d.temps[w])
    && (d.entry.Some? ==> d.entry.value in d.files && d.files[d.entry.value].synced && SomeonesBytes(d, Published(d).value))
  }

  /** What never changes again: a bound key keeps its bytes, a returned writer keeps its
      result and a finished reader keeps what it read. */
  ghost predicate Permanent(d: Disk, e: Disk) {
    && (forall w :: w in d.writers ==> w in e.writers && e.writers[w].bytes == d.writers[w].bytes)
    && (forall w :: w in d.writers && d.writers[w].phase.Returned? ==> e.writers[w].phase == d.writers[w].phase)
    && (forall r :: r in d.readers ==> r in e.readers)
    && (forall r :: r in d.readers && d.readers[r].phase.Finished? ==> e.readers[r].phase == d.readers[r].phase)
    && (Published(d).Some? ==> Published(e) == Published(d))
  }

  /** A step of `w` that leaves alone what is not its own: other writers and their temporary
      names, the readers, a bound key, and every file but its own unsynced temporary. */
  ghost predicate OnlyTouches(d: Disk, e: Disk, w: Actor) {
    && w in d.writers && w in e.writers
    && e.writers == d.writers[w := e.writers[w]] && e.writers[w].bytes == d.writers[w].bytes
    && e.readers == d.readers
    && (forall v :: v != w ==> (v in e.temps <==> v in d.temps))
    && (forall v :: v != w && v in d.temps ==> e.temps[v] == d.temps[v])
    && (e.entry == d.entry || (d.entry.None? && w in d.temps && e.entry == Some(d.temps[w])))
    && (forall f :: f in d.files ==> f in e.files)
    && (forall f :: f in d.files && (d.files[f].synced || w !in d.temps || d.temps[w] != f) ==> e.files[f] == d.files[f])
  }

  /** What the writer itself must see to in such a step. */
  ghost predicate OwnPartOk(d: Disk, e: Disk, w: Actor)
    requires w in e.writers
  {
    && WriterOk(e, w)
    && (w in e.temps ==> e.temps[w] in e.files)
    && (forall v :: v in d.temps && v != w && w in e.temps ==> d.temps[v] != e.temps[w])
    && (d.entry.None? && e.entry.Some? ==> Sealed(e, e.entry.value, e.writers[w].bytes))
  }

  lemma PublishedStays(d: Disk, e: Disk, w: Actor)
    requires Inv(d) && OnlyTouches(d, e, w)
    ensures Published(d).Some? ==> Published(e) == Published(d)
  {
  }

  lemma OtherWriterStaysOk(d: Disk, e: Disk, w: Actor, v: Actor)
    requires Inv(d) && OnlyTouches(d, e, w) && v in d.writers && v != w
    ensures WriterOk(e, v)
  {
    PublishedStays(d, e, w);
    assert WriterOk(d, v);
    assert e.writers[v] == d.writers[v];
  }

  lemma ReaderStaysOk(d: Disk, e: Disk, w: Actor, r: Actor)
    requires Inv(d) && OnlyTouches(d, e, w) && r in d.readers
    ensures ReaderOk(e, r)
  {
    PublishedStays(d, e, w);
    assert ReaderOk(d, r);
  }

  lemma EntryStaysOk(d: Disk, e: Disk, w: Actor)
    requires Inv(d) && OnlyTouches(d, e, w) && OwnPartOk(d, e, w)
    ensures e.entry.Some? ==>
      e.entry.value in e.files && e.files[e.entry.value].synced && SomeonesBytes(e, Published(e).value)
  {
    OthersKeepBytes(d, e);
    if e.entry.Some? {
      if d.entry.None? {
        assert e.writers[w].bytes == Published(e).value;
      } else {
        PublishedStays(d, e, w);
      }
    }
  }

  lemma WriterStepKeeps(d: Disk, e: Disk, w: Actor)
    requires Inv(d) && OnlyTouches(d, e, w) && OwnPartOk(d, e, w)
    ensures Inv(e)
  {
    forall v | v in e.writers ensures WriterOk(e, v) {
      if v != w {
        OtherWriterStaysOk(d, e, w, v);
      }
    }
    forall r | r in e.readers ensures ReaderOk(e, r) {
      ReaderStaysOk(d, e, w, r);
    }
    EntryStaysOk(d, e, w);
  }

  lemma WriterStepIsPermanent(d: Disk, e: Disk, w: Actor)
    requires Inv(d) && OnlyTouches(d, e, w) && !d.writers[w].phase.Returned?
    ensures Permanent(d, e)
  {
    PublishedStays(d, e, w);
  }

  lemma OpenKeeps(d: Disk, e: Disk, w: Actor, temp: Inode)
    requires Inv(d) && Open(d, e, w, temp)
    ensures Inv(e) && Permanent(d, e)
  {
    assert WriterOk(d, w);
    WriterStepKeeps(d, e, w);
    WriterStepIsPermanent(d, e, w);
  }

  lemma WriteKeeps(d: Disk, e: Disk, w: Actor, n: nat)
    requires Inv(d) && Write(d, e, w, n)
    ensures Inv(e) && Permanent(d, e)
  {
    var phase, bytes := d.writers[w].phase, d.writers[w].bytes;
    assert WriterOk(d, w);
    assert bytes[..phase.written] + bytes[phase.written..phase.written + n] == bytes[..phase.written + n];
    WriterStepKeeps(d, e, w);
    WriterStepIsPermanent(d, e, w);
  }

  lemma SyncKeeps(d: Disk, e: Disk, w: Actor)
    requires Inv(d) && Sync(d, e, w)
    ensures Inv(e) && Permanent(d, e)
  {
    var bytes := d.writers[w].bytes;
    assert WriterOk(d, w);
    assert bytes[..|bytes|] == bytes;
    WriterStepKeeps(d, e, w);
    WriterStepIsPermanent(d, e, w);
  }

  lemma LinkKeeps(d: Disk, e: Disk, w: Actor)
    requires Inv(d) && Link(d, e, w)
    ensures Inv(e) && Permanent(d, e)
  {
    assert WriterOk(d, w);
    WriterStepKeeps(d, e, w);
    WriterStepIsPermanent(d, e, w);
  }

  lemma CompareKeeps(d: Disk, e: Disk, w: Actor)
    requires Inv(d) && Compare(d, e, w)
    ensures Inv(e) && Permanent(d, e)
  {
    assert WriterOk(d, w);
    WriterStepKeeps(d, e, w);
    WriterStepIsPermanent(d, e, w);
  }

  lemma FaultKeeps(d: Disk, e: Disk, w: Actor)
    requires Inv(d) && Fault(d, e, w)
    ensures Inv(e) && Permanent(d, e)
  {
    assert WriterOk(d, w);
    WriterStepKeeps(d, e, w);
    WriterStepIsPermanent(d, e, w);
  }

  lemma RemoveKeeps(d: Disk, e: Disk, w: Actor, removed: bool)
    requires Inv(d) && Remove(d, e, w, removed)
    ensures Inv(e) && Permanent(d, e)
  {
    assert WriterOk(d, w);
    WriterStepKeeps(d, e, w);
    WriterStepIsPermanent(d, e, w);
  }

  lemma CrashKeeps(d: Disk, e: Disk, w: Actor, remains: Bytes)
    requires Inv(d) && Crash(d, e, w, remains)
    ensures Inv(e) && Permanent(d, e)
  {
    assert WriterOk(d, w);
    WriterStepKeeps(d, e, w);
    WriterStepIsPermanent(d, e, w);
  }

  lemma ReadersKeep(d: Disk, e: Disk, a: Action)
    requires Inv(d) && (a.DoOpenForRead? || a.DoRead?) && Next(d, e, a)
    ensures Inv(e) && Permanent(d, e)
  {
    assert ReaderOk(d, a.r);
    assert e == d.(readers := e.readers);
    forall w | w in e.writers ensures WriterOk(e, w) {
      assert WriterOk(d, w);
      SameDiskSameWriter(d, e, w);
    }
    forall r | r in e.readers ensures ReaderOk(e, r) {
      assert ReaderOk(d, r);
    }
    OthersKeepBytes(d, e);
  }

  lemma SameDiskSameWriter(d: Disk, e: Disk, w: Actor)
    requires e == d.(readers := e.readers) && w in d.writers
    ensures WriterOk(e, w) == WriterOk(d, w) && Published(e) == Published(d)
  {
  }

  /** Writers never change what they set out to write. */
  lemma OthersKeepBytes(d: Disk, e: Disk)
    requires forall w :: w in d.writers ==> w in e.writers && e.writers[w].bytes == d.writers[w].bytes
    ensures forall bytes :: SomeonesBytes(d, bytes) ==> SomeonesBytes(e, bytes)
  {
    forall bytes | SomeonesBytes(d, bytes) ensures SomeonesBytes(e, bytes) {
      var w :| w in d.writers && d.writers[w].bytes == bytes;
      assert e.writers[w].bytes == bytes;
    }
  }

  lemma StepKeeps(d: Disk, e: Disk, a: Action)
    requires Inv(d) && Next(d, e, a)
    ensures Inv(e) && Permanent(d, e)
  {
    match a {
      case DoOpen(w, temp) => OpenKeeps(d, e, w, temp);
      case DoWrite(w, n) => WriteKeeps(d, e, w, n);
      case DoSync(w) => SyncKeeps(d, e, w);
      case DoLink(w) => LinkKeeps(d, e, w);
      case DoCompare(w) => CompareKeeps(d, e, w);
      case DoFault(w) => FaultKeeps(d, e, w);
      case DoRemove(w, removed) => RemoveKeeps(d, e, w, removed);
      case DoCrash(w, remains) => CrashKeeps(d, e, w, remains);
      case DoOpenForRead(_) => ReadersKeep(d, e, a);
      case DoRead(_, _) => ReadersKeep(d, e, a);
    }
  }

  // ---------- Every interleaving ----------

  predicate Behavior(disks: seq<Disk>, actions: seq<Action>) {
    && |disks| == |actions| + 1
    && Init(disks[0])
    && forall i :: 0 <= i < |actions| ==> Next(disks[i], disks[i + 1], actions[i])
  }

  lemma {:induction false} AlwaysInv(disks: seq<Disk>, actions: seq<Action>, i: nat)
    requires Behavior(disks, actions) && i < |disks|
    ensures Inv(disks[i])
  {
    if i > 0 {
      AlwaysInv(disks, actions, i - 1);
      StepKeeps(disks[i - 1], disks[i], actions[i - 1]);
    }
  }

  lemma PermanentCompose(a: Disk, b: Disk, c: Disk)
    requires Permanent(a, b) && Permanent(b, c)
    ensures Permanent(a, c)
  {
    forall w | w in a.writers && a.writers[w].phase.Returned? ensures c.writers[w].phase == a.writers[w].phase {
      assert w in b.writers && b.writers[w].phase == a.writers[w].phase;
    }
    forall r | r in a.readers && a.readers[r].phase.Finished? ensures c.readers[r].phase == a.readers[r].phase {
      assert r in b.readers && b.readers[r].phase == a.readers[r].phase;
    }
  }

  lemma PermanentIsReflexive(d: Disk)
    ensures Permanent(d, d)
  {
  }

  lemma {:induction false} PermanentChain(disks: seq<Disk>, i: nat, j: nat)
    requires i <= j < |disks|
    requires forall k :: i <= k < j ==> Permanent(disks[k], disks[k + 1])
    ensures Permanent(disks[i], disks[j])
    decreases j
  {
    if i == j {
      PermanentIsReflexive(disks[i]);
    } else {
      PermanentChain(disks, i, j - 1);
      assert Permanent(disks[j - 1], disks[j - 1 + 1]);
      PermanentCompose(disks[i], disks[j - 1], disks[j]);
    }
  }

  lemma AlwaysPermanent(disks: seq<Disk>, actions: seq<Action>, i: nat, j: nat)
    requires Behavior(disks, actions) && i <= j < |disks|
    ensures Permanent(disks[i], disks[j])
  {
    forall k | i <= k < j ensures Permanent(disks[k], disks[k + 1]) {
      AlwaysInv(disks, actions, k);
      StepKeeps(disks[k], disks[k + 1], actions[k]);
    }
    PermanentChain(disks, i, j);
  }

  /** At every moment of every interleaving the key is absent or holds one writer's whole
      bytes, and once it holds them it holds them for ever. */
  lemma BindingIsPermanent(disks: seq<Disk>, actions: seq<Action>, i: nat, j: nat)
    requires Behavior(disks, actions) && i <= j < |disks|
    ensures disks[i].entry.Some? ==>
      && Published(disks[i]).Some?
      && SomeonesBytes(disks[i], Published(disks[i]).value)
      && Published(disks[j]) == Published(disks[i])
  {
    AlwaysInv(disks, actions, i);
    AlwaysPermanent(disks, actions, i, j);
  }

  /** A reader that returns bytes returns one writer's whole bytes, within its bound, and
      every later reader of the key that returns bytes returns the same ones. */
  lemma ReadersSeeWholeObjects(
    disks: seq<Disk>, actions: seq<Action>, i: nat, r: Actor, j: nat, q: Actor)
    requires Behavior(disks, actions) && i <= j < |disks|
    requires r in disks[i].readers && disks[i].readers[r].phase.Finished? && disks[i].readers[r].phase.result.Ok?
    requires q in disks[j].readers && disks[j].readers[q].phase.Finished? && disks[j].readers[q].phase.result.Ok?
    ensures var bytes := disks[i].readers[r].phase.result.value;
      && SomeonesBytes(disks[i], bytes)
      && |bytes| <= disks[i].readers[r].maxBytes
      && disks[j].readers[q].phase.result.value == bytes
  {
    AlwaysInv(disks, actions, i);
    AlwaysInv(disks, actions, j);
    AlwaysPermanent(disks, actions, i, j);
    assert ReaderOk(disks[i], r) && ReaderOk(disks[j], q);
  }

  /** Success means the key holds the writer's bytes from then on; a reported conflict
      means it holds different ones; two successful writers wrote the same bytes. */
  lemma WritersAgree(disks: seq<Disk>, actions: seq<Action>, i: nat, v: Actor, j: nat, w: Actor)
    requires Behavior(disks, actions) && i <= j < |disks|
    requires v in disks[i].writers && disks[i].writers[v].phase.Returned?
    requires w in disks[j].writers && disks[j].writers[w].phase.Returned?
    ensures disks[i].writers[v].phase.result.Ok? ==> Published(disks[j]) == Some(disks[i].writers[v].bytes)
    ensures disks[i].writers[v].phase.result == Err(ImmutableConflict) ==>
      Published(disks[j]).Some? && Published(disks[j]).value != disks[i].writers[v].bytes
    ensures disks[i].writers[v].phase.result.Ok? && disks[j].writers[w].phase.result.Ok? ==>
      disks[i].writers[v].bytes == disks[j].writers[w].bytes
  {
    AlwaysInv(disks, actions, i);
    AlwaysInv(disks, actions, j);
    AlwaysPermanent(disks, actions, i, j);
    assert WriterOk(disks[i], v) && WriterOk(disks[j], w);
  }

  /** What a writer got is what the in-memory driver's `create_immutable` would have given
      it, against the object the key ended up holding, unless the system failed it. */
  lemma FilesystemRefinesInMemory(disks: seq<Disk>, actions: seq<Action>, i: nat, w: Actor, key: string)
    requires Behavior(disks, actions) && i < |disks|
    requires w in disks[i].writers && disks[i].writers[w].phase.Returned?
    requires disks[i].writers[w].phase.result != Err(Io)
    ensures Published(disks[i]).Some?
    ensures var created := Create(map[key := Published(disks[i]).value], key, disks[i].writers[w].bytes);
      match disks[i].writers[w].phase.result
      case Ok(_) => created.Ok?
      case Err(error) => created == Err(error)
  {
    AlwaysInv(disks, actions, i);
    assert WriterOk(disks[i], w);
  }
}
