/**
 * The part of the operating system that the comparison code touches: a
 * filesystem that does not change while a comparison runs, the `os.path`
 * predicates that inspect it, `open(path, 'rb')`, and a binary file handle
 * with a read position.
 */
module FileSystem {
  import opened Wrappers
  import opened Bytes

  /** A path is a flat key; directories inside paths are not modelled. */
  type Path = string

  /** What a path names. A symbolic link names another path. Devices, FIFOs
      and sockets are not modelled. */
  datatype Entry = Regular(data: seq<byte>) | Directory | Symlink(target: Path)

  type Fs = map<Path, Entry>

  /** The errors `open` can raise in this model: FileNotFoundError,
      IsADirectoryError and the ELOOP OSError of a symbolic-link cycle. */
  datatype OsError = NotFound | IsADirectory | TooManyLinks

  /** Path resolution gives up after this many symbolic links (Linux MAXSYMLINKS). */
  const MaxSymlinks: nat := 40

  /** The entry `p` denotes once symbolic links are followed, with `hops`
      more links allowed. */
  function Resolve(fs: Fs, p: Path, hops: nat): (r: Result<Entry, OsError>)
    ensures r.Ok? ==> !r.value.Symlink? && r.value in fs.Values
    ensures r.Err? ==> r.error != IsADirectory
    decreases hops
  {
    if p !in fs then Err(NotFound)
    else match fs[p]
      case Symlink(t) => if hops == 0 then Err(TooManyLinks) else Resolve(fs, t, hops - 1)
      case e => Ok(e)
  }

  /** os.path.exists: the path resolves, following links. */
  predicate Exists(fs: Fs, p: Path): (r: bool)
    ensures p !in fs ==> !r
    ensures p in fs && !fs[p].Symlink? ==> r
  {
    Resolve(fs, p, MaxSymlinks).Ok?
  }

  /** os.path.isdir: the path resolves, following links, to a directory. */
  predicate IsDir(fs: Fs, p: Path): (r: bool)
    ensures r ==> Exists(fs, p)
    ensures p in fs && fs[p].Directory? ==> r
    ensures p in fs && fs[p].Regular? ==> !r
  {
    Resolve(fs, p, MaxSymlinks) == Ok(Directory)
  }

  /** os.path.islink: the path itself is a symbolic link (not followed). */
  predicate IsLink(fs: Fs, p: Path): (r: bool)
    // With no hops left, resolution fails with TooManyLinks exactly at a link entry.
    ensures r <==> Resolve(fs, p, 0) == Err(TooManyLinks)
  {
    p in fs && fs[p].Symlink?
  }

  /** open(p, 'rb'): the contents of the regular file `p` resolves to, or the
      error open raises. */
  function Open(fs: Fs, p: Path): (r: Result<seq<byte>, OsError>)
    ensures r.Ok? <==> Exists(fs, p) && !IsDir(fs, p)
    ensures r.Ok? ==> Regular(r.value) in fs.Values
    ensures p in fs && fs[p].Regular? ==> r == Ok(fs[p].data)
    ensures p in fs && fs[p].Directory? ==> r == Err(IsADirectory)
    ensures p !in fs ==> r == Err(NotFound)
  {
    match Resolve(fs, p, MaxSymlinks)
    case Ok(Regular(data)) => Ok(data)
    case Ok(_) => Err(IsADirectory)
    case Err(e) => Err(e)
  }

  /** What `read(size)` returns at offset `pos`: the next `size` bytes, fewer
      at the end of the file, and everything left when `size` is negative. */
  function ReadAt(data: seq<byte>, pos: nat, size: int): (r: seq<byte>)
    requires pos <= |data|
    ensures pos + |r| <= |data| && r == data[pos..pos + |r|]
    ensures size >= 0 ==> |r| == if pos + size <= |data| then size else |data| - pos
    ensures size < 0 ==> pos + |r| == |data|
  {
    if size < 0 || pos + size > |data| then data[pos..] else data[pos..pos + size]
  }

  /** One opened file and the number of bytes read from it so far. */
  datatype Access = Access(path: Path, bytesRead: nat)

  /** The filesystem together with a record of every file opened on it, in
      opening order, with how many bytes were read from each. Opening a file
      is the only way to get a handle, and a handle keeps its own record up
      to date, so the record is exactly the I/O that happened. */
  class Disk {
    const fs: Fs
    ghost var log: seq<Access>

    constructor (fs: Fs)
      ensures this.fs == fs && log == []
    {
      this.fs := fs;
      log := [];
    }

    /** open(p, 'rb'): a fresh handle at offset 0 and a new record for it,
        or the error open raises, with nothing recorded. */
    method OpenFile(p: Path) returns (r: Result<FileHandle, OsError>)
      modifies this
      ensures Open(fs, p).Err? ==> r == Err(Open(fs, p).error) && log == old(log)
      ensures Open(fs, p).Ok? ==>
        && r.Ok? && fresh(r.value) && r.value.Valid()
        && r.value.disk == this && r.value.path == p && r.value.data == Open(fs, p).value
        && r.value.pos == 0 && r.value.slot == |old(log)|
        && log == old(log) + [Access(p, 0)]
    {
      var contents := Open(fs, p);
      if contents.Err? {
        return Err(contents.error);
      }
      log := log + [Access(p, 0)];
      var f := new FileHandle(this, p, contents.value, |log| - 1);
      r := Ok(f);
    }
  }

  /** A binary file opened for reading: its contents, the read position, and
      the place of its record in the disk's log. */
  class FileHandle {
    const disk: Disk
    const path: Path
    const data: seq<byte>
    ghost const slot: nat
    var pos: nat

    ghost predicate Valid()
      reads this, disk
    {
      pos <= |data| && slot < |disk.log| && disk.log[slot] == Access(path, pos)
    }

    constructor (disk: Disk, path: Path, data: seq<byte>, ghost slot: nat)
      requires slot < |disk.log| && disk.log[slot] == Access(path, 0)
      ensures Valid()
      ensures this.disk == disk && this.path == path && this.data == data && this.slot == slot && pos == 0
    {
      this.disk := disk;
      this.path := path;
      this.data := data;
      this.slot := slot;
      pos := 0;
    }

    /** f.read(size): returns the next bytes, advances past them, and counts
        them in this file's record. */
    method Read(size: int) returns (chunk: seq<byte>)
      requires Valid()
      modifies this, disk
      ensures Valid()
      ensures chunk == ReadAt(data, old(pos), size)
      ensures pos == old(pos) + |chunk|
      ensures disk.log == old(disk.log)[slot := Access(path, pos)]
    {
      chunk := ReadAt(data, pos, size);
      pos := pos + |chunk|;
      disk.log := disk.log[slot := Access(path, pos)];
    }
  }
}
