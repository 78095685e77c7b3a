/**
 The directory one lock subject lives in, as the system calls of the lock protocol see it.

 A name is bound to an inode and an inode holds one file. Distinct subjects use
 distinct names, so one subject is one directory here. Inode numbers are reused
 freely: a new file may take any inode no name refers to.
 */
module FileSystem {

  /** The names one subject owns. Temporary names carry the serial number that makes them fresh. */
  datatype Name =
    | Lock                    // <subject>.lock
    | Fence                   // <subject>.fence
    | ClaimTmp(serial: nat)   // <subject>.lock.<random>
    | FenceTmp(serial: nat)   // <subject>.fence.<random>
    | Tomb(serial: nat)       // <subject>.lock.reclaimed.<random>

  /** What a file can hold. A complete holder record is opaque except for what makes
      it unique and for the instant it was stamped. */
  datatype Bytes =
    | Empty
    | Partial
    | Claim(id: nat, since: int)
    | Counter(value: nat)

  type Ino = nat

  datatype File = File(bytes: Bytes, synced: bool)

  datatype Disk = Disk(dir: map<Name, Ino>, files: map<Ino, File>)

  /** A file's identity together with its bytes: what a release or a reclaim removes by. */
  datatype Rec = Rec(ino: Ino, bytes: Bytes)

  function FileOf(d: Disk, ino: Ino): File {
    if ino in d.files then d.files[ino] else File(Empty, false)
  }

  function FileAt(d: Disk, name: Name): File
    requires name in d.dir
  {
    FileOf(d, d.dir[name])
  }

  /** `name` is bound to exactly this record: same inode and same bytes. */
  predicate Holds(d: Disk, name: Name, rec: Rec) {
    name in d.dir && d.dir[name] == rec.ino && FileAt(d, name).bytes == rec.bytes
  }

  /** No name refers to `ino`. */
  predicate Free(d: Disk, ino: Ino) {
    forall n :: n in d.dir ==> d.dir[n] != ino
  }

  /** `name` is the only name `ino` has. */
  ghost predicate Sole(d: Disk, name: Name, ino: Ino) {
    && name in d.dir && d.dir[name] == ino
    && forall n :: n in d.dir && d.dir[n] == ino ==> n == name
  }

  /** open(O_CREAT|O_EXCL) */
  function Create(d: Disk, name: Name, ino: Ino): Disk {
    Disk(d.dir[name := ino], d.files[ino := File(Empty, false)])
  }

  /** write(2) and fsync(2) through an open handle. */
  function Put(d: Disk, ino: Ino, file: File): Disk {
    d.(files := d.files[ino := file])
  }

  /** link(2), when the target does not exist. */
  function Link(d: Disk, from: Name, to: Name): Disk
    requires from in d.dir
  {
    d.(dir := d.dir[to := d.dir[from]])
  }

  /** unlink(2); unlinking an unbound name changes nothing. */
  function Unlink(d: Disk, name: Name): Disk {
    d.(dir := d.dir - {name})
  }

  /** rename(2): replaces the target, and does nothing when both names are the same file. */
  function Rename(d: Disk, from: Name, to: Name): Disk
    requires from in d.dir
  {
    if to in d.dir && d.dir[to] == d.dir[from] then d
    else d.(dir := (d.dir - {from})[to := d.dir[from]])
  }

  /** `n` is bound to the same file with the same content, or unbound, in both. */
  predicate Same(d: Disk, e: Disk, n: Name) {
    && (n in d.dir <==> n in e.dir)
    && (n in d.dir ==> d.dir[n] == e.dir[n] && FileAt(d, n) == FileAt(e, n))
  }

  lemma CreateSame(d: Disk, name: Name, ino: Ino, n: Name)
    requires n != name && Free(d, ino)
    ensures Same(d, Create(d, name, ino), n)
  {
  }

  lemma PutSame(d: Disk, name: Name, ino: Ino, file: File, n: Name)
    requires n != name && Sole(d, name, ino)
    ensures Same(d, Put(d, ino, file), n)
  {
  }

  lemma LinkSame(d: Disk, from: Name, to: Name, n: Name)
    requires from in d.dir && n != to
    ensures Same(d, Link(d, from, to), n)
  {
  }

  lemma UnlinkSame(d: Disk, name: Name, n: Name)
    requires n != name
    ensures Same(d, Unlink(d, name), n)
  {
  }

  lemma MoveSame(d: Disk, from: Name, to: Name, n: Name)
    requires from in d.dir && n != from && n != to
    ensures Same(d, Rename(d, from, to), n)
  {
  }
}
