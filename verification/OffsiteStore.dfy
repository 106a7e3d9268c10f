/**
 The off-site store (services/backup/offsite.go): the writer and the reader of the format as
 loops over streams, and Put and Get over an object store.
 */
module OffsiteStores {
  import opened Wrappers
  import opened OffsiteFormat

  /** The objects of one backup: the three files a restore needs, and their checksums. */
  datatype Name = Postgres | Vault | Manifest | Checksums
  datatype Key = Key(backupID: string, name: Name)
  type Objects = map<Key, Bytes>

  /** What Put reports: where the file went and how to check it. */
  datatype Receipt = Receipt(key: Key, sha256: string, size: nat)

  /** What Get yields: the file, unless it is missing, does not decrypt or has another checksum. */
  function Fetched(log: Log, objects: Objects, sha: Bytes -> string, key: Key, want: string): Option<Bytes> {
    if key !in objects then None else
    var r := Decrypt(log, objects[key]);
    if r.Err? || (want != "" && sha(r.plain) != want) then None else Some(r.plain)
  }

  method ChunkNonce(prefix: Bytes, counter: nat) returns (n: array<byte>)
    requires |prefix| == PREFIX_LEN
    ensures fresh(n) && n[..] == Nonce(prefix, counter)
    ensures n.Length == 12 && n[..8] == prefix
    ensures counter < 0x1_0000_0000 ==> counter == ((n[8] as int * 256 + n[9] as int) * 256 + n[10] as int) * 256 + n[11] as int
  {
    if counter < 0x1_0000_0000 {
      HighestByteFirst(counter);
    }
    n := new byte[12](i requires 0 <= i < 12 => if i < PREFIX_LEN then prefix[i] else 0);
    var word := BE32(counter);
    n[8], n[9], n[10], n[11] := word[0], word[1], word[2], word[3];
    assert n[..] == prefix + word;
  }

  method ChunkAad(counter: nat, last: bool) returns (aad: array<byte>)
    ensures fresh(aad) && aad[..] == Aad(counter, last)
    ensures aad.Length == 5 && aad[4] == if last then 1 else 0
    ensures counter < 0x1_0000_0000 ==> counter == ((aad[0] as int * 256 + aad[1] as int) * 256 + aad[2] as int) * 256 + aad[3] as int
  {
    if counter < 0x1_0000_0000 {
      HighestByteFirst(counter);
    }
    aad := new byte[5](_ => 0);
    var word := BE32(counter);
    aad[0], aad[1], aad[2], aad[3] := word[0], word[1], word[2], word[3];
    if last {
      aad[4] := 1;
    }
    assert aad[..] == word + [if last then 1 else 0];
  }

  /** Reads a stream chunk by chunk, opening each as the last one and then as a middle one. */
  method ReadChunks(log: Log, src: Bytes) returns (r: Result)
    ensures r == OffsiteFormat.Decrypt(log, src)
  {
    if |src| < |MAGIC| + PREFIX_LEN || src[..|MAGIC|] != MAGIC {
      return Err(BadHeader);
    }
    var prefix := src[|MAGIC|..|MAGIC| + PREFIX_LEN];
    var s, dst, counter := src[|MAGIC| + PREFIX_LEN..], [], 0;
    while true
      invariant OffsiteFormat.Decrypt(log, src) == Prepend(dst, DecryptFrom(log, prefix, counter, s))
      decreases |s|
    {
      if |s| < 4 {
        return Err(Truncated);
      }
      var n := ReadBE32(s[..4]);
      if n < OVERHEAD || n > CHUNK + OVERHEAD {
        return Err(ImpossibleChunkSize);
      }
      if |s| < 4 + n {
        return Err(TruncatedInChunk);
      }
      var sealed := s[4..4 + n];
      var plain := Open(log, prefix, counter, sealed, true);
      var last := plain.Ok?;
      if !last {
        plain := Open(log, prefix, counter, sealed, false);
        if plain.Err? {
          return Err(NotAuthentic);
        }
      }
      PrependTwice(dst, plain.plain, DecryptFrom(log, prefix, Increment(counter), s[4 + n..]));
      dst, s := dst + plain.plain, s[4 + n..];
      if last {
        return if s == [] then Ok(dst) else Err(DataAfterLastChunk);
      }
      counter := Increment(counter);
    }
  }

  lemma PrependTwice(a: Bytes, b: Bytes, r: Result)
    ensures Prepend(a, Prepend(b, r)) == Prepend(a + b, r)
  {
    if r.Ok? {
      assert a + (b + r.plain) == a + b + r.plain;
    }
  }

  lemma UpdateTwice(runs: Runs, p: Bytes, r: Run, r': Run)
    ensures runs[p := r][p := r'] == runs[p := r']
  {
  }

  /** What has been written once the first `n` chunks are out. */
  ghost function Written(seal: SealFn, prefix: Bytes, cs: seq<Bytes>, n: nat): Bytes
    requires n <= |cs|
  {
    if n == 0 then MAGIC + prefix
    else Written(seal, prefix, cs, n - 1) + Frame(SealedChunk(seal, prefix, cs, n - 1).cipher)
  }

  lemma FrameMoves(seal: SealFn, prefix: Bytes, cs: seq<Bytes>, n: nat)
    requires n < |cs|
    ensures Written(seal, prefix, cs, n) + Body(seal, prefix, cs, n) == Written(seal, prefix, cs, n + 1) + Body(seal, prefix, cs, n + 1)
  {
    Shift(Written(seal, prefix, cs, n), Frame(SealedChunk(seal, prefix, cs, n).cipher), Body(seal, prefix, cs, n + 1));
  }

  lemma WrittenThenBody(seal: SealFn, prefix: Bytes, cs: seq<Bytes>, n: nat)
    requires n <= |cs|
    ensures MAGIC + prefix + Body(seal, prefix, cs, 0) == Written(seal, prefix, cs, n) + Body(seal, prefix, cs, n)
  {
    for i := 0 to n
      invariant MAGIC + prefix + Body(seal, prefix, cs, 0) == Written(seal, prefix, cs, i) + Body(seal, prefix, cs, i)
    {
      FrameMoves(seal, prefix, cs, i);
    }
  }

  lemma Shift(a: Bytes, b: Bytes, c: Bytes)
    ensures a + (b + c) == a + b + c
  {
  }

  lemma Regroup(a: Bytes, b: Bytes, c: Bytes, d: Bytes)
    ensures a + (b + c) == a + b + c && a + (b + c + d) == a + b + (c + d) == a + b + c + d
  {
  }

  lemma WrittenStep(seal: SealFn, prefix: Bytes, cs: seq<Bytes>, n: nat)
    requires n < |cs|
    ensures var whole, done := MAGIC + prefix + Body(seal, prefix, cs, 0), Written(seal, prefix, cs, n);
            var cipher := SealedChunk(seal, prefix, cs, n).cipher;
            && done <= whole && done + BE32(|cipher|) <= whole && done + BE32(|cipher|) + cipher <= whole
            && done + BE32(|cipher|) + cipher == Written(seal, prefix, cs, n + 1)
            && (n == |cs| - 1 ==> done + BE32(|cipher|) + cipher == whole)
  {
    var cipher := SealedChunk(seal, prefix, cs, n).cipher;
    var done, tail := Written(seal, prefix, cs, n), Body(seal, prefix, cs, n + 1);
    WrittenThenBody(seal, prefix, cs, n);
    Regroup(done, BE32(|cipher|), cipher, tail);
  }

  /** A stream and one it begins have one header. */
  lemma SameHeader(p: Bytes, rest: Bytes, p': Bytes, rest': Bytes)
    requires |p| == |p'| && MAGIC + p + rest <= MAGIC + p' + rest'
    ensures p == p'
  {
    forall i | 0 <= i < |p|
      ensures p[i] == p'[i]
    {
      assert (MAGIC + p + rest)[|MAGIC| + i] == (MAGIC + p' + rest')[|MAGIC| + i];
    }
  }

  /** How an upload is reported. One reported as failed may have left the object as it was, or
      `kept` bytes of what it had been sent. */
  datatype Upload = Taken | Failed(kept: Option<nat>)

  class OffsiteStore {
    const seal: SealFn
    const sha: Bytes -> string
    var objects: Objects
    // The AEAD: what has been sealed under the key.
    var log: Log
    // Every call of Encrypt, by the nonce prefix it drew.
    ghost var runs: Runs

    ghost predicate Valid()
      reads this
    {
      Expands(seal) && History(seal, log, runs)
    }

    constructor (seal: SealFn, sha: Bytes -> string)
      requires Expands(seal)
      ensures Valid() && objects == map[] && runs == map[] && this.seal == seal && this.sha == sha
    {
      this.seal, this.sha := seal, sha;
      objects, log, runs := map[], map[], map[];
    }

    /** Reads up to one chunk of `src` at `pos`, peeks for more, and seals it as chunk `counter`. */
    method SealChunk(src: Bytes, pos: nat, prefix: Bytes, counter: nat) returns (cipher: Bytes, next: nat, last: bool)
      requires Valid() && |prefix| == PREFIX_LEN && pos <= |src| && counter < COUNTERS
      requires prefix in runs && counter == runs[prefix].sealed < |runs[prefix].chunks|
      requires runs[prefix].chunks[counter..] == Chunks(src[pos..])
      modifies this`log, this`runs
      ensures Valid() && runs == old(runs)[prefix := Run(old(runs)[prefix].chunks, counter + 1)]
      ensures var cs := old(runs)[prefix].chunks;
              && cipher == SealedChunk(seal, prefix, cs, counter).cipher
              && (last <==> counter == |cs| - 1)
              && (!last ==> pos < next <= |src| && cs[counter + 1..] == Chunks(src[next..]))
    {
      var n := if |src| - pos < CHUNK then |src| - pos else CHUNK;
      var buf := src[pos..pos + n];
      ChunkStep(src, pos, n, runs[prefix].chunks, counter);
      next := pos + n;
      last := next == |src|;
      var nonce := ChunkNonce(prefix, counter);
      var aad := ChunkAad(counter, last);
      cipher := seal(nonce[..], buf, aad[..]);
      SealNext(seal, log, runs, prefix);
      log := log[Sealed(nonce[..], aad[..], cipher) := buf];
      runs := runs[prefix := Run(runs[prefix].chunks, counter + 1)];
    }

    /** Writes the encryption of `src` to `dst`. The first `operations` reads and writes succeed
        and the one after them fails. */
    method Encrypt(src: Bytes, noncePrefix: Bytes, operations: nat) returns (dst: Bytes, ok: bool, ghost sealed: nat)
      requires Valid() && |noncePrefix| == PREFIX_LEN && noncePrefix !in runs
      modifies this`log, this`runs
      ensures Valid() && runs == old(runs)[noncePrefix := Run(Chunks(src), sealed)]
      ensures ok <==> |Chunks(src)| <= COUNTERS && operations >= 2 + 3 * |Chunks(src)|
      ensures dst <= Encrypted(seal, noncePrefix, Chunks(src))
      ensures ok ==> sealed == |Chunks(src)| && dst == Encrypted(seal, noncePrefix, Chunks(src))
    {
      ghost var cs := Chunks(src);
      ghost var before := runs;
      assert ValidRun(noncePrefix, Run(cs, 0)) by { ChunksOfFile(src); }
      StartRun(seal, log, runs, noncePrefix, cs);
      runs := runs[noncePrefix := Run(cs, 0)];
      dst, ok, sealed := if operations == 0 then [] else MAGIC, false, 0;
      if operations < 2 { return; }
      dst := dst + noncePrefix;
      var left, pos, counter := operations - 2, 0, 0;
      assert src[0..] == src && cs[0..] == cs;
      while true
        invariant 0 <= pos <= |src| && 0 <= counter < COUNTERS && counter < |cs|
        invariant cs[counter..] == Chunks(src[pos..])
        invariant left == operations - 2 - 3 * counter
        invariant Valid() && runs == before[noncePrefix := Run(cs, counter)] && sealed == counter
        invariant dst == Written(seal, noncePrefix, cs, counter)
        invariant !ok
        decreases |src| - pos
      {
        WrittenStep(seal, noncePrefix, cs, counter);
        if left == 0 { return; }
        var cipher, next, last := SealChunk(src, pos, noncePrefix, counter);
        UpdateTwice(before, noncePrefix, Run(cs, counter), Run(cs, counter + 1));
        sealed := counter + 1;
        if left >= 2 {
          dst := dst + BE32(|cipher|);
        }
        if left >= 3 {
          dst := dst + cipher;
        }
        if left < 3 || last {
          ok := left >= 3;
          return;
        }
        left, pos, counter := left - 3, next, Increment(counter);
        if counter == 0 { return; }
      }
    }

    method Decrypt(src: Bytes) returns (r: Result)
      requires Valid()
      ensures r == OffsiteFormat.Decrypt(log, src)
      ensures r.Ok? <==> exists prefix, file :: IsOutputOf(seal, runs, prefix, src, file)
      ensures r.Ok? ==> exists prefix :: IsOutputOf(seal, runs, prefix, src, r.plain)
    {
      r := ReadChunks(log, src);
      AcceptedExactly(src);
    }

    lemma AcceptedExactly(s: Bytes)
      requires Valid()
      ensures var r := OffsiteFormat.Decrypt(log, s);
              && (r.Ok? <==> exists prefix, file :: IsOutputOf(seal, runs, prefix, s, file))
              && (r.Ok? ==> exists prefix :: IsOutputOf(seal, runs, prefix, s, r.plain))
    {
      if OffsiteFormat.Decrypt(log, s).Ok? {
        AcceptedIsOutput(seal, log, runs, s);
      }
      if prefix, file :| IsOutputOf(seal, runs, prefix, s, file) {
        OutputIsAccepted(seal, log, runs, prefix, s, file);
      }
    }

    /** The object under a key is the complete output of an encryption of `file`. */
    ghost predicate Holds(key: Key, file: Bytes)
      reads this
    {
      key in objects && exists prefix :: IsOutputOf(seal, runs, prefix, objects[key], file)
    }

    lemma HoldsFetched(key: Key, file: Bytes, want: string)
      requires Valid() && Holds(key, file)
      ensures want == "" || want == sha(file) ==> Fetched(log, objects, sha, key, want) == Some(file)
    {
      var prefix :| IsOutputOf(seal, runs, prefix, objects[key], file);
      OutputIsAccepted(seal, log, runs, prefix, objects[key], file);
    }

    /** A stream that begins an encryption of a file is read as that file or not at all. */
    lemma PrefixFetches(s: Bytes, prefix: Bytes, file: Bytes)
      requires Valid() && |prefix| == PREFIX_LEN && prefix in runs && runs[prefix].chunks == Chunks(file)
      requires s <= Encrypted(seal, prefix, Chunks(file))
      ensures var r := OffsiteFormat.Decrypt(log, s); r.Ok? ==> r.plain == file
    {
      var r := OffsiteFormat.Decrypt(log, s);
      if r.Ok? {
        AcceptedExactly(s);
        var p :| IsOutputOf(seal, runs, p, s, r.plain);
        assert ValidRun(p, runs[p]);
        SameHeader(p, Body(seal, p, runs[p].chunks, 0), prefix, Body(seal, prefix, Chunks(file), 0));
        ChunksOfFile(file);
      }
    }

    /** An object that is fetched as the file it was to hold, or not at all. */
    ghost predicate LeftBehind(backupID: string, name: Name, file: Bytes)
      reads this
    {
      Key(backupID, name) in objects
      && forall want | Fetched(log, objects, sha, Key(backupID, name), want).Some? ::
           Fetched(log, objects, sha, Key(backupID, name), want) == Some(file)
    }

    /** Encrypts a file and uploads it. An upload that fails may have left what it had been sent. */
    method Put(backupID: string, name: Name, file: Bytes, noncePrefix: Bytes, operations: nat, upload: Upload)
      returns (receipt: Option<Receipt>)
      requires Valid() && |noncePrefix| == PREFIX_LEN && noncePrefix !in runs
      modifies this
      ensures Valid() && noncePrefix in runs && runs == old(runs)[noncePrefix := Run(Chunks(file), runs[noncePrefix].sealed)]
      ensures forall k | k != Key(backupID, name) :: k in objects <==> k in old(objects)
      ensures forall k | k != Key(backupID, name) && k in objects :: objects[k] == old(objects)[k]
      ensures receipt.Some? <==> upload.Taken? && |Chunks(file)| <= 0x1_0000_0000 && operations >= 2 + 3 * |Chunks(file)|
      ensures receipt.None? ==> objects == old(objects) || LeftBehind(backupID, name, file)
      ensures receipt.Some? ==> receipt.value == Receipt(Key(backupID, name), sha(file), |file|)
      ensures receipt.Some? ==> objects == old(objects)[Key(backupID, name) := Encrypted(seal, noncePrefix, Chunks(file))]
      ensures receipt.Some? ==> Holds(Key(backupID, name), file)
      ensures forall k, f | old(Holds(k, f)) && k != Key(backupID, name) :: Holds(k, f)
    {
      ghost var before := runs;
      var body, ok, _ := Encrypt(file, noncePrefix, operations);
      forall p, s, f | IsOutputOf(seal, before, p, s, f)
        ensures IsOutputOf(seal, runs, p, s, f)
      {
      }
      if !ok || upload.Failed? {
        if upload.Failed? && upload.kept.Some? {
          var kept := if upload.kept.value < |body| then body[..upload.kept.value] else body;
          objects := objects[Key(backupID, name) := kept];
          PrefixFetches(kept, noncePrefix, file);
        }
        return None;
      }
      objects := objects[Key(backupID, name) := body];
      ChunksOfFile(file);
      assert IsOutputOf(seal, runs, noncePrefix, body, file);
      return Some(Receipt(Key(backupID, name), sha(file), |file|));
    }

    /** Downloads an object; the file is put in place only when all of it has been checked. */
    method Get(backupID: string, name: Name, want: string) returns (file: Option<Bytes>)
      requires Valid()
      ensures file == Fetched(log, objects, sha, Key(backupID, name), want)
    {
      if Key(backupID, name) !in objects {
        return None;
      }
      var r := Decrypt(objects[Key(backupID, name)]);
      if r.Err? {
        return None;
      }
      if want != "" && sha(r.plain) != want {
        return None;
      }
      return Some(r.plain);
    }
  }

  /** What reading up to one chunk at `pos` takes off the list of chunks. */
  lemma ChunkStep(src: Bytes, pos: nat, n: nat, cs: seq<Bytes>, counter: nat)
    requires pos + n <= |src| && counter < |cs| && cs[counter..] == Chunks(src[pos..])
    requires n == if |src| - pos < CHUNK then |src| - pos else CHUNK
    ensures cs[counter] == src[pos..pos + n]
    ensures pos + n == |src| <==> counter == |cs| - 1
    ensures pos + n < |src| ==> n == CHUNK && cs[counter + 1..] == Chunks(src[pos + n..])
  {
    var rest := src[pos..];
    assert rest[..n] == src[pos..pos + n] && rest[n..] == src[pos + n..];
    assert cs[counter] == cs[counter..][0] && cs[counter + 1..] == cs[counter..][1..];
    if |rest| <= CHUNK {
      assert rest[..n] == rest;
    }
  }
}
