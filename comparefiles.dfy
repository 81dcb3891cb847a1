/**
 * The two-phase file comparison: a quick check of the hashes of the first
 * bytes of both files, then a full hash of each file, streamed in chunks.
 *
 * Each operation is a method that opens files, reads them and feeds an
 * incremental hasher, and is proved equal to a specification function of the
 * filesystem. Each method also promises that the disk's log of opened files
 * grows by exactly a trace function of the filesystem. The log is written only
 * by opening and reading, so "this file is never opened" and "no full hash is
 * computed" can be stated about the trace functions.
 */
module CompareFiles {
  import opened Wrappers
  import opened Bytes
  import opened FileSystem
  import opened Hashing

  /** The number of leading bytes the quick check hashes by default. */
  const DefaultPrefixBytes: int := 1024

  /** The result of a full comparison: the shared checksum, or "not equal"
      (Python returns the checksum string or False). */
  datatype MatchResult = Match(digest: Digest) | NoMatch

  datatype Role = FileA | FileB

  /** The input checks of `compare`, in the order they run. */
  datatype Check = MustExist | MustNotBeDir | MustNotBeLink

  /** A failed input check (an AssertionError), or an error raised by open. */
  datatype Error = InvalidInput(file: Role, failed: Check) | FileAccess(cause: OsError)

  // ---------------------------------------------------------------------------
  // Specification functions

  /** The number of bytes `read(numBytes)` yields from the start of `data`. */
  function PrefixLength(data: seq<byte>, numBytes: int): (n: nat)
    ensures n <= |data|
    ensures 0 <= numBytes < |data| ==> n == numBytes
    ensures numBytes < 0 || |data| <= numBytes ==> n == |data|
  {
    |ReadAt(data, 0, numBytes)|
  }

  /** The digest of the first `numBytes` bytes of the file at `p`. */
  function PrefixDigest(fs: Fs, hash: HashFn, p: Path, numBytes: int): (r: Result<Digest, OsError>)
    ensures r.Ok? <==> Open(fs, p).Ok?
    ensures r.Ok? ==> r.value == hash(Open(fs, p).value[..PrefixLength(Open(fs, p).value, numBytes)])
  {
    var data :- Open(fs, p);
    Ok(hash(ReadAt(data, 0, numBytes)))
  }

  /** The file `p` as the quick check reads it. */
  function PrefixTrace(fs: Fs, p: Path, numBytes: int): seq<Access> {
    match Open(fs, p)
    case Ok(data) => [Access(p, PrefixLength(data, numBytes))]
    case Err(_) => []
  }

  /** md5_partial_match: whether the digests of the two prefixes agree. */
  function PartialMatchResult(fs: Fs, hash: HashFn, a: Path, b: Path, numBytes: int): (r: Result<bool, OsError>)
    ensures r.Ok? <==> Open(fs, a).Ok? && Open(fs, b).Ok?
    ensures r.Ok? ==> (r.value <==> PrefixDigest(fs, hash, a, numBytes) == PrefixDigest(fs, hash, b, numBytes))
    ensures Open(fs, a).Err? ==> r == Err(Open(fs, a).error)
  {
    var checksumA :- PrefixDigest(fs, hash, a, numBytes);
    var checksumB :- PrefixDigest(fs, hash, b, numBytes);
    Ok(checksumA == checksumB)
  }

  function PartialMatchTrace(fs: Fs, a: Path, b: Path, numBytes: int): seq<Access> {
    PrefixTrace(fs, a, numBytes) + (if Open(fs, a).Ok? then PrefixTrace(fs, b, numBytes) else [])
  }

  /** The checksum the full check uses for `p`: the supplied one if there is
      one, and otherwise the digest of the whole file. */
  function FullChecksum(fs: Fs, hash: HashFn, p: Path, supplied: Option<Digest>): (r: Result<Digest, OsError>)
    ensures supplied.Some? ==> r == Ok(supplied.value)
    ensures supplied.None? && Open(fs, p).Ok? ==> r == Ok(hash(Open(fs, p).value))
    ensures supplied.None? && Open(fs, p).Err? ==> r == Err(Open(fs, p).error)
  {
    match supplied
    case Some(d) => Ok(d)
    case None => var data :- Open(fs, p); Ok(hash(data))
  }

  /** The file `p` as the full check reads it: not at all when a checksum is
      supplied, otherwise to the end. */
  function FullTrace(fs: Fs, p: Path, supplied: Option<Digest>): seq<Access> {
    if supplied.Some? then []
    else match Open(fs, p)
      case Ok(data) => [Access(p, |data|)]
      case Err(_) => []
  }

  /** md5_full_match: B's checksum when the two checksums are equal, NoMatch
      when they differ. */
  function FullMatchResult(fs: Fs, hash: HashFn, a: Path, b: Path, sumA: Option<Digest>, sumB: Option<Digest>)
    : (r: Result<MatchResult, OsError>)
    ensures r.Ok? <==> FullChecksum(fs, hash, a, sumA).Ok? && FullChecksum(fs, hash, b, sumB).Ok?
    ensures r.Ok? ==> (r.value.Match? <==> FullChecksum(fs, hash, a, sumA) == FullChecksum(fs, hash, b, sumB))
    ensures r.Ok? && r.value.Match? ==> r.value.digest == FullChecksum(fs, hash, b, sumB).value
    ensures FullChecksum(fs, hash, a, sumA).Err? ==> r == Err(FullChecksum(fs, hash, a, sumA).error)
  {
    var checksumA :- FullChecksum(fs, hash, a, sumA);
    var checksumB :- FullChecksum(fs, hash, b, sumB);
    Ok(if checksumA == checksumB then Match(checksumB) else NoMatch)
  }

  function FullMatchTrace(fs: Fs, a: Path, b: Path, sumA: Option<Digest>, sumB: Option<Digest>): seq<Access> {
    FullTrace(fs, a, sumA) + (if sumA.Some? || Open(fs, a).Ok? then FullTrace(fs, b, sumB) else [])
  }

  /** The first of the three input checks that `p` fails, if any. */
  function FailedCheck(fs: Fs, p: Path): (r: Option<Check>)
    ensures r.None? <==> p in fs && fs[p].Regular?
    ensures p !in fs ==> r == Some(MustExist)
    ensures p in fs && fs[p].Directory? ==> r == Some(MustNotBeDir)
  {
    if !Exists(fs, p) then Some(MustExist)
    else if IsDir(fs, p) then Some(MustNotBeDir)
    else if IsLink(fs, p) then Some(MustNotBeLink)
    else None
  }

  /** The input checks of `compare`: file A's three, then file B's. */
  function InputError(fs: Fs, a: Path, b: Path): (r: Option<Error>)
    ensures r.None? <==> FailedCheck(fs, a).None? && FailedCheck(fs, b).None?
    ensures r.Some? ==> r.value.InvalidInput?
  {
    match FailedCheck(fs, a)
    case Some(c) => Some(InvalidInput(FileA, c))
    case None =>
      match FailedCheck(fs, b)
      case Some(c) => Some(InvalidInput(FileB, c))
      case None => None
  }

  function Lift<T>(r: Result<T, OsError>): Result<T, Error> {
    match r
    case Ok(v) => Ok(v)
    case Err(e) => Err(FileAccess(e))
  }

  /** Whether `compare` skips the quick check. */
  predicate SkipsPrefix(sumB: Option<Digest>, singlePass: bool) {
    singlePass || sumB.Some?
  }

  /** compare: the input checks, then either the full check alone or the
      quick check followed, when the prefixes agree, by the full check. */
  function CompareResult(fs: Fs, hash: HashFn, a: Path, b: Path, sumB: Option<Digest>, singlePass: bool)
    : (r: Result<MatchResult, Error>)
    ensures InputError(fs, a, b).Some? ==> r == Err(InputError(fs, a, b).value)
    ensures r.Ok? && r.value.Match? ==>
              FullChecksum(fs, hash, a, None) == FullChecksum(fs, hash, b, sumB) == Ok(r.value.digest)
    ensures r.Ok? && r.value.NoMatch? && SkipsPrefix(sumB, singlePass) ==>
              FullChecksum(fs, hash, a, None) != FullChecksum(fs, hash, b, sumB)
  {
    if InputError(fs, a, b).Some? then Err(InputError(fs, a, b).value)
    else if SkipsPrefix(sumB, singlePass) then Lift(FullMatchResult(fs, hash, a, b, None, sumB))
    else match PartialMatchResult(fs, hash, a, b, DefaultPrefixBytes)
      // Never an error: both paths passed the checks (CompareErrorsAreInvalidInput).
      case Err(e) => Err(FileAccess(e))
      case Ok(true) => Lift(FullMatchResult(fs, hash, a, b, None, None))
      case Ok(false) => Ok(NoMatch)
  }

  function CompareTrace(fs: Fs, hash: HashFn, a: Path, b: Path, sumB: Option<Digest>, singlePass: bool)
    : seq<Access>
  {
    if InputError(fs, a, b).Some? then []
    else if SkipsPrefix(sumB, singlePass) then FullMatchTrace(fs, a, b, None, sumB)
    else
      PartialMatchTrace(fs, a, b, DefaultPrefixBytes) +
      (if PartialMatchResult(fs, hash, a, b, DefaultPrefixBytes) == Ok(true)
       then FullMatchTrace(fs, a, b, None, None) else [])
  }

  // ---------------------------------------------------------------------------
  // The operations

  /** The quick-check half for one file: open it, read `numBytes` once, and
      hash what was read with a fresh hasher. */
  method HashPrefix(disk: Disk, hash: HashFn, p: Path, numBytes: int) returns (r: Result<Digest, OsError>)
    modifies disk
    ensures r == PrefixDigest(disk.fs, hash, p, numBytes)
    ensures disk.log == old(disk.log) + PrefixTrace(disk.fs, p, numBytes)
  {
    var handle := disk.OpenFile(p);
    if handle.Err? {
      return Err(handle.error);
    }
    var f := handle.value;
    var chunk := f.Read(numBytes);
    var md5 := new Md5(hash);
    md5.Update(chunk);
    assert md5.buffer == chunk;
    r := Ok(md5.HexDigest());
  }

  lemma ConcatSlices(s: seq<byte>, i: nat, j: nat)
    requires i <= j <= |s|
    ensures s[..i] + s[i..j] == s[..j]
  {
  }

  /** The full hash of one file: read it in chunks of `chunkSize` bytes until
      a read comes back empty, feeding every chunk to the hasher. */
  method HashFile(disk: Disk, hash: HashFn, p: Path, chunkSize: nat) returns (r: Result<Digest, OsError>)
    requires chunkSize > 0
    modifies disk
    ensures r == FullChecksum(disk.fs, hash, p, None)
    ensures disk.log == old(disk.log) + FullTrace(disk.fs, p, None)
  {
    var md5 := new Md5(hash);
    var handle := disk.OpenFile(p);
    if handle.Err? {
      return Err(handle.error);
    }
    var f := handle.value;
    var chunk := f.Read(chunkSize);
    while chunk != []
      invariant f.Valid() && f.data == Open(disk.fs, p).value && md5.hash == hash
      invariant disk.log == old(disk.log) + [Access(p, f.pos)]
      invariant |md5.buffer| + |chunk| == f.pos
      invariant md5.buffer == f.data[..|md5.buffer|]
      invariant chunk == f.data[|md5.buffer|..f.pos]
      invariant chunk == [] ==> f.pos == |f.data|
      decreases |f.data| - |md5.buffer|
    {
      ConcatSlices(f.data, |md5.buffer|, f.pos);
      md5.Update(chunk);
      chunk := f.Read(chunkSize);
    }
    assert f.data[..|f.data|] == f.data;
    assert md5.buffer == f.data;
    r := Ok(md5.HexDigest());
  }

  /** md5_partial_match. */
  method Md5PartialMatch(disk: Disk, hash: HashFn, a: Path, b: Path, numBytes: int) returns (r: Result<bool, OsError>)
    modifies disk
    ensures r == PartialMatchResult(disk.fs, hash, a, b, numBytes)
    ensures disk.log == old(disk.log) + PartialMatchTrace(disk.fs, a, b, numBytes)
  {
    var checksumA := HashPrefix(disk, hash, a, numBytes);
    if checksumA.Err? {
      return Err(checksumA.error);
    }
    var checksumB := HashPrefix(disk, hash, b, numBytes);
    if checksumB.Err? {
      return Err(checksumB.error);
    }
    r := Ok(checksumA.value == checksumB.value);
  }

  /** md5_full_match: a supplied checksum stands in for hashing that file. */
  method Md5FullMatch(disk: Disk, hash: HashFn, a: Path, b: Path, sumA: Option<Digest>, sumB: Option<Digest>,
                      chunkSize: nat)
    returns (r: Result<MatchResult, OsError>)
    requires chunkSize > 0
    modifies disk
    ensures r == FullMatchResult(disk.fs, hash, a, b, sumA, sumB)
    ensures disk.log == old(disk.log) + FullMatchTrace(disk.fs, a, b, sumA, sumB)
  {
    var checksumA: Digest;
    if sumA.None? {
      var d := HashFile(disk, hash, a, chunkSize);
      if d.Err? {
        return Err(d.error);
      }
      checksumA := d.value;
    } else {
      checksumA := sumA.value;
    }
    var checksumB: Digest;
    if sumB.None? {
      var d := HashFile(disk, hash, b, chunkSize);
      if d.Err? {
        return Err(d.error);
      }
      checksumB := d.value;
    } else {
      checksumB := sumB.value;
    }
    if checksumA == checksumB {
      r := Ok(Match(checksumB));
    } else {
      r := Ok(NoMatch);
    }
  }

  /** compare: check both paths, then compare the files. `chunkSize` is the
      read size of the full check. */
  method Compare(disk: Disk, hash: HashFn, a: Path, b: Path, sumB: Option<Digest>, singlePass: bool, chunkSize: nat)
    returns (r: Result<MatchResult, Error>)
    requires chunkSize > 0
    modifies disk
    ensures r == CompareResult(disk.fs, hash, a, b, sumB, singlePass)
    ensures disk.log == old(disk.log) + CompareTrace(disk.fs, hash, a, b, sumB, singlePass)
  {
    var invalid := InputError(disk.fs, a, b);
    if invalid.Some? {
      return Err(invalid.value);
    }
    if singlePass || sumB.Some? {
      var m := Md5FullMatch(disk, hash, a, b, None, sumB, chunkSize);
      r := Lift(m);
    } else {
      var prefixesAgree := Md5PartialMatch(disk, hash, a, b, DefaultPrefixBytes);
      // Both paths name regular files, so neither open can fail.
      assert prefixesAgree.Ok?;
      if prefixesAgree.value {
        var m := Md5FullMatch(disk, hash, a, b, None, None, chunkSize);
        r := Lift(m);
      } else {
        r := Ok(NoMatch);
      }
    }
  }
}
