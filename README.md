# bvzcomparefiles in Dafny

A model of `bvzcomparefiles/comparefiles.py`, which decides whether two files
are identical in two phases:

- a quick check (`md5_partial_match`) hashes the first `num_bytes` bytes
  (1024 by default) of each file and compares the two digests;
- a full check (`md5_full_match`) streams each file through an incremental
  MD5 hasher in fixed-size chunks, or uses a checksum the caller supplies for
  either file, and returns file B's checksum when the two are equal and
  `False` otherwise;
- `compare` asserts that both paths exist, are not directories and are not
  symbolic links. With `single_pass` set or B's checksum supplied it runs the
  full check alone; otherwise it runs the quick check and the full check only
  when the prefixes agree.

Files:

- `wrappers.dfy`: `Option`, and `Result` usable with `:-`.
- `bytes.dfy`: the `byte` type shared by the filesystem model and the hasher.
- `filesystem.dfy`: the filesystem as a map from path to `Regular(data)`,
  `Directory` or `Symlink(target)`. It holds `os.path.exists`, `isdir` and
  `islink`, and `open(path, 'rb')`. A `Disk` class pairs the filesystem with
  a log of every file opened on it. Its `OpenFile` is the only way to get a
  `FileHandle`, and that handle's `Read` advances a read position and keeps
  the file's log entry up to date.
- `hashing.dfy`: the `Md5` hasher class. `Update` appends to the buffer of
  bytes fed so far, and `HexDigest` is the hash of that buffer. The hash
  function itself is a parameter (`HashFn`), so it is uninterpreted.
- `comparefiles.dfy`: one specification function per source function
  (`PartialMatchResult`, `FullMatchResult`, `CompareResult`, with the traces
  `PartialMatchTrace`, `FullMatchTrace` and `CompareTrace`). It also holds the
  methods that do the work as the source does: open, read, update the hasher,
  loop until an empty read. Each method is proved equal to its specification
  function.
- `properties.dfy`: lemmas about the specification functions.

The disk's ghost log holds one `Access(path, bytesRead)` for each file opened
on it, in opening order, with the number of bytes read from it so far. The
log is written only by `Disk.OpenFile` and `FileHandle.Read`. Every method
promises that it appends exactly its specification trace, so any open or
read beyond that trace breaks the method's proof. This is how the model
states that a file is never opened or that no full hash is computed.

The hash function is arbitrary in every statement. So results are stated as
digest equality, never as byte equality: "prefixes differ ⇒ NoMatch" is
proved only in the form "prefix digests differ ⇒ NoMatch".

Python returns either a digest string or `False`. The model returns
`Match(digest)` or `NoMatch` instead. A failed assertion in `compare` becomes
`Err(InvalidInput(file, check))`, recording which file and which of the three
checks failed: the source tells them apart only by the line of the
`AssertionError`. An exception raised by `open` becomes an `OsError`
(`NotFound`, `IsADirectory`, `TooManyLinks`). `compare` wraps it as
`FileAccess`, and `CompareErrorsAreInvalidInput` shows this cannot happen
once the input checks pass.

The filesystem is fixed while a call runs. `os.path.exists`, `isdir` and
`open` follow symbolic links up to 40 hops, the Linux limit; `islink` does
not follow them. A link therefore fails one of the three checks in every
case. A dangling or looping link fails "exists", a link to a directory fails
"not a directory", and a link to a regular file fails "not a link".

`read(n)` returns the next `n` bytes, fewer at the end of the file, and all
remaining bytes when `n` is negative, as Python's binary reads do. So a
negative `num_bytes` makes the quick check hash the whole file.

The source reads the full check in chunks of `128 * md5.block_size` bytes.
The model takes the chunk size as a parameter `chunkSize > 0`, so the full
digest is proved to be `hash(data)` for every positive chunk size.

## Model

| member | source | states |
|---|---|---|
| FileSystem.Resolve | bvzcomparefiles/comparefiles.py:115-120 | resolving a path through symbolic links ends on an existing non-link entry, or fails with not-found or too-many-links |
| FileSystem.Exists | bvzcomparefiles/comparefiles.py:115 | `os.path.exists` follows links: a missing path does not exist, any entry that is not a link does |
| FileSystem.IsDir | bvzcomparefiles/comparefiles.py:116 | `os.path.isdir` follows links: only an existing path can be a directory, a directory entry is one, a regular file is not |
| FileSystem.IsLink | bvzcomparefiles/comparefiles.py:117 | `os.path.islink` holds exactly when the path's own entry is a symbolic link (lstat, not followed): resolution with no link hops allowed fails with too-many-links exactly then, and a missing path fails with not-found instead |
| FileSystem.Open | bvzcomparefiles/comparefiles.py:30 | `open(p, 'rb')` succeeds exactly when the path exists and is not a directory, and then yields a regular file's contents; a regular file yields its own data, a directory raises is-a-directory, a missing path raises not-found |
| FileSystem.ReadAt | bvzcomparefiles/comparefiles.py:31 | a read returns the contiguous bytes that follow the position: exactly `size` of them, fewer at end of file, all remaining ones for a negative size |
| FileSystem.Disk.constructor | bvzcomparefiles/comparefiles.py:30 | before a call, nothing has been opened: the log is empty |
| FileSystem.Disk.OpenFile | bvzcomparefiles/comparefiles.py:30 | `open(p, 'rb')` either raises the error `Open` gives, and records nothing, or gives a fresh handle at position 0 over the file's contents and appends one log entry for it with no bytes read |
| FileSystem.FileHandle.constructor | bvzcomparefiles/comparefiles.py:30 | a new handle starts at position 0 over the file's contents, and its log entry records no bytes read |
| FileSystem.FileHandle.Read | bvzcomparefiles/comparefiles.py:70 | `f.read(size)` returns the next bytes from the current position and advances the position past them; the handle's log entry then records the new position, and no other entry changes |
| Hashing.Md5.constructor | bvzcomparefiles/comparefiles.py:32 | a fresh hasher has been fed nothing |
| Hashing.Md5.HexDigest | bvzcomparefiles/comparefiles.py:34 | `md5.hexdigest()` is the hash of every byte fed so far, in order |
| Hashing.Md5.Update | bvzcomparefiles/comparefiles.py:33 | `update` appends the chunk to the bytes fed so far |
| CompareFiles.PrefixLength | bvzcomparefiles/comparefiles.py:31 | the quick check reads `num_bytes` bytes, or the whole file when it is shorter or `num_bytes` is negative |
| CompareFiles.PrefixDigest | bvzcomparefiles/comparefiles.py:30-34 | one file's prefix digest exists exactly when the file opens, and is the hash of its first `PrefixLength` bytes |
| CompareFiles.PartialMatchResult | bvzcomparefiles/comparefiles.py:30-42 | `md5_partial_match` succeeds exactly when both files open. It is true iff the two prefix digests are equal. An error opening A is raised before B is looked at |
| CompareFiles.FullChecksum | bvzcomparefiles/comparefiles.py:67-83 | the full check uses a supplied checksum as is; otherwise it uses the hash of the whole file, or the open error |
| CompareFiles.FullMatchResult | bvzcomparefiles/comparefiles.py:67-88 | `md5_full_match` succeeds exactly when both checksums exist, and an error for A is raised first. It returns a match iff they are equal, and the digest returned is B's checksum |
| CompareFiles.FailedCheck | bvzcomparefiles/comparefiles.py:115-117 | among regular files, directories and links (the only entry kinds modelled), a path passes the three checks exactly when it names a regular file; a missing path fails "exists" and a directory fails "not a directory" |
| CompareFiles.InputError | bvzcomparefiles/comparefiles.py:115-120 | the input checks pass exactly when both files pass; every failure is an invalid-input error |
| CompareFiles.SkipsPrefix | bvzcomparefiles/comparefiles.py:122 | the quick check is skipped when `single_pass` is set or B's checksum is supplied |
| CompareFiles.CompareResult | bvzcomparefiles/comparefiles.py:92-129 | `compare`: a failed input check is returned as that error; a returned digest is A's full digest and also B's full digest or supplied checksum; without the quick check, `NoMatch` means the two full checksums differ. The quick check uses the default 1024 bytes of line 13. The lemmas in `properties.dfy` state the rest: the error cases, the two branches, identical files, symmetry |
| CompareFiles.HashPrefix | bvzcomparefiles/comparefiles.py:30-34 | one open, one `read(num_bytes)` and one `update` on a fresh hasher give the prefix digest; the only I/O is that open, reading the prefix (`PrefixTrace`), and a failed open records nothing |
| CompareFiles.HashFile | bvzcomparefiles/comparefiles.py:67-72 | the chunked loop stops at the first empty read, having fed the hasher exactly the whole file in order, so the digest is the hash of the whole file for every positive chunk size; the loop ends because every modelled file is finite; the only I/O is one open of the file, read to its end (`FullTrace`) |
| CompareFiles.Md5PartialMatch | bvzcomparefiles/comparefiles.py:11-42 | computes `PartialMatchResult`; the disk log grows by exactly `PartialMatchTrace`: A and then B, each read for its prefix only, and B not at all when A fails to open |
| CompareFiles.Md5FullMatch | bvzcomparefiles/comparefiles.py:46-88 | computes `FullMatchResult`; the disk log grows by exactly `FullMatchTrace`: each file whose checksum is not supplied is opened once and read whole, A before B, and a file with a supplied checksum is never opened |
| CompareFiles.Compare | bvzcomparefiles/comparefiles.py:92-129 | computes `CompareResult`; the disk log grows by exactly `CompareTrace`, so the files opened and the bytes read are the ones the properties below state about that trace |
| CompareFilesProperties.ReadPrefixIsLeadingBytes | bvzcomparefiles/comparefiles.py:31 | a first read of `n` bytes is `data[..min(n, |data|)]`, the whole file when it is shorter |
| CompareFilesProperties.PrefixDigestOfRegularFile | bvzcomparefiles/comparefiles.py:30-34 | the quick check of a regular file hashes `data[..min(n, |data|)]`, a shorter file's whole content, and reads that many bytes |
| CompareFilesProperties.PartialMatchOfRegularFiles | bvzcomparefiles/comparefiles.py:30-42 | on two regular files `md5_partial_match` succeeds, is true iff the prefix digests are equal, and reads only the two prefixes, A first |
| CompareFilesProperties.SuppliedChecksumsAreNotRead | bvzcomparefiles/comparefiles.py:67-83 | a supplied checksum replaces hashing that file, which is never opened; with both supplied nothing is read and the result depends on the two values alone |
| CompareFilesProperties.FullMatchReturnsChecksumB | bvzcomparefiles/comparefiles.py:85-88 | `md5_full_match` returns `Match(d)` iff both checksums are `d`, and `NoMatch` iff both exist and differ |
| CompareFilesProperties.FailedCheckOfEntry | bvzcomparefiles/comparefiles.py:115-120 | a missing path fails "exists", a directory fails "not a directory", and every symbolic link fails a check, "not a link" when it resolves to a regular file |
| CompareFilesProperties.CompareRejectsInvalidPaths | bvzcomparefiles/comparefiles.py:115-120 | `compare` on a missing path, a directory or a link fails with invalid input, reporting A's check before B's, and opens nothing |
| CompareFilesProperties.CompareErrorsAreInvalidInput | bvzcomparefiles/comparefiles.py:115-129 | among regular files, directories and links, `compare` fails iff a path is not a regular file, and then only with invalid input, never with an open error |
| CompareFilesProperties.CompareFullOnly | bvzcomparefiles/comparefiles.py:122-125 | with `single_pass` or B's checksum, `compare` returns exactly the full-match result, B's digest being the supplied checksum if any; it runs no quick check and reads A whole, and B whole unless its checksum is supplied |
| CompareFilesProperties.ComparePrefixGate | bvzcomparefiles/comparefiles.py:126-129 | otherwise, differing prefix digests give `NoMatch` after reading only the two prefixes, at most 1024 bytes each; no full hash is computed |
| CompareFilesProperties.ComparePrefixThenFull | bvzcomparefiles/comparefiles.py:126-128 | agreeing prefix digests lead to the full check, whose result is returned exactly; differing full digests give `NoMatch` despite agreeing prefixes |
| CompareFilesProperties.CompareMatchIsFullDigest | bvzcomparefiles/comparefiles.py:122-129 | a digest `compare` returns is the full digest of A and also B's full digest or supplied checksum, so a prefix match alone never yields a digest |
| CompareFilesProperties.IdenticalFilesMatch | bvzcomparefiles/comparefiles.py:30-129 | through the quick check (lines 30-42), the full check (lines 67-88) and the branching of `compare` (lines 122-129): two byte-identical regular files, including two empty files, match with the hash of their content whether or not `single_pass` is set |
| CompareFilesProperties.CompareReflexive | bvzcomparefiles/comparefiles.py:92-129 | a regular file compared with itself matches with the hash of its content |
| CompareFilesProperties.CompareSymmetric | bvzcomparefiles/comparefiles.py:92-129 | swapping two regular files does not change the result, digest included |
| CompareFilesProperties.CompareKnownDigest | bvzcomparefiles/comparefiles.py:122-125 | with B's checksum supplied, `compare` matches iff A's full digest equals it, and opens only A |

## Left out

- The MD5 algorithm and its hex rendering: the hash is an uninterpreted function parameter. So concrete digests, such as that of `"hello world"`, are not stated, and no property relies on the hash being collision-free.
- Real operating-system I/O: permissions, device errors, and changes to the filesystem between the `os.path` checks and `open`. The filesystem is a map that stays fixed for the whole call. Paths are flat keys: directories inside paths and relative link targets are not modelled.
- File kinds other than regular files, directories and symbolic links: FIFOs, sockets, and character and block devices. `exists`, `not isdir` and `not islink` all accept them, so the source's asserts let them through. A device that never reaches end of file, such as `/dev/zero`, means the chunked loop of `md5_full_match` never gets an empty read and never finishes. Opening a FIFO can block forever. `Entry` has no such case, so `FailedCheck`'s "passes exactly for regular files", `CompareErrorsAreInvalidInput`, and the termination of `HashFile`'s loop hold only over the three modelled kinds.
- Closing the file handles at the end of each `with` block: no method uses a handle after its block, and the log entry of a handle already holds everything read through it.
- The value of `md5.block_size`: the chunk size of the full check is a parameter required to be positive, which `128 * md5.block_size` always is.
- Python's `-O` flag, which removes the asserts in `compare`: the model always runs the checks.
- `sample.py`: command-line parsing, printing and timing. It imports a module `comparefiles_new`, which is not part of this model.
