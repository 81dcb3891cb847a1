/**
 * What the comparison promises, stated over the specification functions that
 * the methods of CompareFiles are proved to compute. The hash function is
 * arbitrary throughout, so every statement is about digest equality, never
 * about byte equality of the files.
 */
module CompareFilesProperties {
  import opened Wrappers
  import opened Bytes
  import opened FileSystem
  import opened Hashing
  import opened CompareFiles

  /** Both paths pass the input checks of `compare`. */
  predicate BothRegular(fs: Fs, a: Path, b: Path) {
    a in fs && fs[a].Regular? && b in fs && fs[b].Regular?
  }

  /** A read on a fresh handle returns the leading bytes: exactly `numBytes`
      of them, or the whole file when it is shorter. */
  lemma ReadPrefixIsLeadingBytes(data: seq<byte>, numBytes: nat)
    ensures ReadAt(data, 0, numBytes) == data[..if numBytes < |data| then numBytes else |data|]
    ensures |data| <= numBytes ==> ReadAt(data, 0, numBytes) == data
  {
  }

  /** The quick check of one file hashes exactly its first `numBytes` bytes,
      and a shorter file over its whole content. */
  lemma PrefixDigestOfRegularFile(fs: Fs, hash: HashFn, p: Path, numBytes: nat)
    requires p in fs && fs[p].Regular?
    ensures PrefixDigest(fs, hash, p, numBytes)
         == Ok(hash(fs[p].data[..if numBytes < |fs[p].data| then numBytes else |fs[p].data|]))
    ensures |fs[p].data| <= numBytes ==> PrefixDigest(fs, hash, p, numBytes) == Ok(hash(fs[p].data))
    ensures PrefixTrace(fs, p, numBytes)
         == [Access(p, if numBytes < |fs[p].data| then numBytes else |fs[p].data|)]
  {
    ReadPrefixIsLeadingBytes(fs[p].data, numBytes);
  }

  /** md5_partial_match on two regular files is true exactly when the digests
      of their leading bytes are equal, and it reads only those bytes. */
  lemma PartialMatchOfRegularFiles(fs: Fs, hash: HashFn, a: Path, b: Path, numBytes: nat)
    requires BothRegular(fs, a, b)
    ensures PartialMatchResult(fs, hash, a, b, numBytes).Ok?
    ensures PartialMatchResult(fs, hash, a, b, numBytes).value
        <==> hash(ReadAt(fs[a].data, 0, numBytes)) == hash(ReadAt(fs[b].data, 0, numBytes))
    ensures PartialMatchTrace(fs, a, b, numBytes)
         == [Access(a, PrefixLength(fs[a].data, numBytes)), Access(b, PrefixLength(fs[b].data, numBytes))]
  {
  }

  /** A supplied checksum is used as that file's digest and the file is never
      opened: with both supplied nothing is read and the result depends on the
      two values alone. */
  lemma SuppliedChecksumsAreNotRead(fs: Fs, hash: HashFn, a: Path, b: Path, sumA: Option<Digest>, sumB: Option<Digest>)
    ensures sumA.Some? ==> FullMatchTrace(fs, a, b, sumA, sumB) == FullTrace(fs, b, sumB)
    ensures sumB.Some? ==> FullMatchTrace(fs, a, b, sumA, sumB) == FullTrace(fs, a, sumA)
    ensures sumA.Some? && sumB.Some? ==>
              (FullMatchResult(fs, hash, a, b, sumA, sumB)
               == Ok(if sumA.value == sumB.value then Match(sumB.value) else NoMatch))
  {
  }

  /** md5_full_match returns B's checksum exactly when the two checksums are
      equal, and NoMatch exactly when both exist and differ. */
  lemma FullMatchReturnsChecksumB(fs: Fs, hash: HashFn, a: Path, b: Path, sumA: Option<Digest>, sumB: Option<Digest>, d: Digest)
    ensures FullMatchResult(fs, hash, a, b, sumA, sumB) == Ok(Match(d))
        <==> FullChecksum(fs, hash, a, sumA) == Ok(d) && FullChecksum(fs, hash, b, sumB) == Ok(d)
    ensures FullMatchResult(fs, hash, a, b, sumA, sumB) == Ok(NoMatch)
        <==> FullChecksum(fs, hash, a, sumA).Ok? && FullChecksum(fs, hash, b, sumB).Ok?
             && FullChecksum(fs, hash, a, sumA) != FullChecksum(fs, hash, b, sumB)
  {
  }

  /** Which check `compare` reports for a path that is not a plain regular
      file. */
  lemma FailedCheckOfEntry(fs: Fs, p: Path)
    ensures p !in fs ==> FailedCheck(fs, p) == Some(MustExist)
    ensures p in fs && fs[p].Directory? ==> FailedCheck(fs, p) == Some(MustNotBeDir)
    ensures p in fs && fs[p].Symlink? ==> FailedCheck(fs, p).Some?
    ensures p in fs && fs[p].Symlink? && Open(fs, p).Ok? ==> FailedCheck(fs, p) == Some(MustNotBeLink)
  {
  }

  /** `compare` rejects a path that does not exist, is a directory or is a
      symbolic link, checking file A first, before it opens anything. */
  lemma CompareRejectsInvalidPaths(fs: Fs, hash: HashFn, a: Path, b: Path, sumB: Option<Digest>, singlePass: bool)
    requires !BothRegular(fs, a, b)
    ensures CompareResult(fs, hash, a, b, sumB, singlePass).Err?
    ensures CompareTrace(fs, hash, a, b, sumB, singlePass) == []
    ensures !(a in fs && fs[a].Regular?) ==>
              CompareResult(fs, hash, a, b, sumB, singlePass) == Err(InvalidInput(FileA, FailedCheck(fs, a).value))
    ensures a in fs && fs[a].Regular? ==>
              CompareResult(fs, hash, a, b, sumB, singlePass) == Err(InvalidInput(FileB, FailedCheck(fs, b).value))
  {
  }

  /** Once the input checks pass, no open fails: the only error `compare`
      reports is invalid input. */
  lemma CompareErrorsAreInvalidInput(fs: Fs, hash: HashFn, a: Path, b: Path, sumB: Option<Digest>, singlePass: bool)
    ensures CompareResult(fs, hash, a, b, sumB, singlePass).Err? <==> !BothRegular(fs, a, b)
    ensures CompareResult(fs, hash, a, b, sumB, singlePass).Err? ==>
              CompareResult(fs, hash, a, b, sumB, singlePass).error.InvalidInput?
  {
    if BothRegular(fs, a, b) && !SkipsPrefix(sumB, singlePass) {
      PartialMatchOfRegularFiles(fs, hash, a, b, DefaultPrefixBytes);
    }
  }

  /** With `single_pass` set or B's checksum supplied, `compare` runs no quick
      check: its result is md5_full_match's, B's digest is the supplied one if
      given, and each file is opened at most once and read to the end. */
  lemma CompareFullOnly(fs: Fs, hash: HashFn, a: Path, b: Path, sumB: Option<Digest>, singlePass: bool)
    requires BothRegular(fs, a, b)
    requires singlePass || sumB.Some?
    ensures CompareResult(fs, hash, a, b, sumB, singlePass) == Ok(FullMatchResult(fs, hash, a, b, None, sumB).value)
    ensures CompareResult(fs, hash, a, b, sumB, singlePass)
         == Ok(if hash(fs[a].data) == (if sumB.Some? then sumB.value else hash(fs[b].data))
               then Match(if sumB.Some? then sumB.value else hash(fs[b].data)) else NoMatch)
    ensures CompareTrace(fs, hash, a, b, sumB, singlePass)
         == [Access(a, |fs[a].data|)] + (if sumB.None? then [Access(b, |fs[b].data|)] else [])
  {
  }

  /** Without `single_pass` and without a supplied checksum, differing prefix
      digests give NoMatch after reading no more than the two prefixes. */
  lemma ComparePrefixGate(fs: Fs, hash: HashFn, a: Path, b: Path)
    requires BothRegular(fs, a, b)
    requires PrefixDigest(fs, hash, a, DefaultPrefixBytes) != PrefixDigest(fs, hash, b, DefaultPrefixBytes)
    ensures CompareResult(fs, hash, a, b, None, false) == Ok(NoMatch)
    ensures CompareTrace(fs, hash, a, b, None, false)
         == [Access(a, PrefixLength(fs[a].data, DefaultPrefixBytes)),
             Access(b, PrefixLength(fs[b].data, DefaultPrefixBytes))]
    ensures forall e :: e in CompareTrace(fs, hash, a, b, None, false) ==> e.bytesRead <= DefaultPrefixBytes
  {
    PartialMatchOfRegularFiles(fs, hash, a, b, DefaultPrefixBytes);
  }

  /** When the prefix digests agree, `compare` goes on to the full check and
      returns exactly its result: agreeing prefixes alone never yield a
      digest. */
  lemma ComparePrefixThenFull(fs: Fs, hash: HashFn, a: Path, b: Path)
    requires BothRegular(fs, a, b)
    requires PrefixDigest(fs, hash, a, DefaultPrefixBytes) == PrefixDigest(fs, hash, b, DefaultPrefixBytes)
    ensures CompareResult(fs, hash, a, b, None, false) == Ok(FullMatchResult(fs, hash, a, b, None, None).value)
    ensures hash(fs[a].data) != hash(fs[b].data) ==> CompareResult(fs, hash, a, b, None, false) == Ok(NoMatch)
    ensures CompareTrace(fs, hash, a, b, None, false)
         == [Access(a, PrefixLength(fs[a].data, DefaultPrefixBytes)),
             Access(b, PrefixLength(fs[b].data, DefaultPrefixBytes)),
             Access(a, |fs[a].data|), Access(b, |fs[b].data|)]
  {
    PartialMatchOfRegularFiles(fs, hash, a, b, DefaultPrefixBytes);
  }

  /** No false positives: a digest `compare` returns is the full digest of file
      A, and either the supplied checksum or the full digest of file B. */
  lemma CompareMatchIsFullDigest(fs: Fs, hash: HashFn, a: Path, b: Path, sumB: Option<Digest>, singlePass: bool, d: Digest)
    requires CompareResult(fs, hash, a, b, sumB, singlePass) == Ok(Match(d))
    ensures BothRegular(fs, a, b)
    ensures d == hash(fs[a].data)
    ensures d == if sumB.Some? then sumB.value else hash(fs[b].data)
  {
    CompareErrorsAreInvalidInput(fs, hash, a, b, sumB, singlePass);
  }

  /** Two byte-identical regular files (two empty files, a file and itself)
      match with the digest of their content in every mode, when no checksum
      is supplied. */
  lemma IdenticalFilesMatch(fs: Fs, hash: HashFn, a: Path, b: Path, singlePass: bool)
    requires BothRegular(fs, a, b) && fs[a].data == fs[b].data
    ensures CompareResult(fs, hash, a, b, None, singlePass) == Ok(Match(hash(fs[a].data)))
  {
    if !singlePass {
      PartialMatchOfRegularFiles(fs, hash, a, b, DefaultPrefixBytes);
    }
  }

  /** Comparing a regular file with itself matches with its full digest. */
  lemma CompareReflexive(fs: Fs, hash: HashFn, a: Path, singlePass: bool)
    requires a in fs && fs[a].Regular?
    ensures CompareResult(fs, hash, a, a, None, singlePass) == Ok(Match(hash(fs[a].data)))
  {
    IdenticalFilesMatch(fs, hash, a, a, singlePass);
  }

  /** Swapping two regular files gives the same result, digest included. */
  lemma CompareSymmetric(fs: Fs, hash: HashFn, a: Path, b: Path, singlePass: bool)
    requires BothRegular(fs, a, b)
    ensures CompareResult(fs, hash, a, b, None, singlePass) == CompareResult(fs, hash, b, a, None, singlePass)
  {
    if !singlePass {
      PartialMatchOfRegularFiles(fs, hash, a, b, DefaultPrefixBytes);
      PartialMatchOfRegularFiles(fs, hash, b, a, DefaultPrefixBytes);
    }
  }

  /** With B's checksum supplied, `compare` matches exactly when the full
      digest of A equals it, and never opens B. */
  lemma CompareKnownDigest(fs: Fs, hash: HashFn, a: Path, b: Path, known: Digest, singlePass: bool)
    requires BothRegular(fs, a, b)
    ensures CompareResult(fs, hash, a, b, Some(known), singlePass).Ok?
    ensures CompareResult(fs, hash, a, b, Some(known), singlePass).value.Match? <==> hash(fs[a].data) == known
    ensures forall e :: e in CompareTrace(fs, hash, a, b, Some(known), singlePass) ==> e == Access(a, |fs[a].data|)
  {
    CompareFullOnly(fs, hash, a, b, Some(known), singlePass);
  }
}
