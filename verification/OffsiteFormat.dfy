/**
 The byte format of an off-site backup object (services/backup/offsite.go): a magic, an
 8-byte nonce prefix, then length-prefixed chunks, each sealed under a nonce that holds its
 position and under associated data that holds its position and whether it is the last one.

 The AEAD is ideal, with the interface of RFC 5116: sealing appends to a log, and opening
 succeeds exactly for what is in the log.
 */
module OffsiteFormat {

  newtype byte = x: int | 0 <= x < 256
  type Bytes = seq<byte>

  // "OFBBK1\x00\x00"
  const MAGIC: Bytes := [0x4F, 0x46, 0x42, 0x42, 0x4B, 0x31, 0x00, 0x00]
  const PREFIX_LEN := 8
  const CHUNK := 0x10_0000
  const OVERHEAD := 16
  // The chunk counter is a uint32.
  const COUNTERS := 0x1_0000_0000

  datatype Error =
    | BadHeader | Truncated | ImpossibleChunkSize | TruncatedInChunk | NotAuthentic | DataAfterLastChunk

  datatype Result = Ok(plain: Bytes) | Err(error: Error)

  /** What the AEAD was given and what it returned; the log maps it to the plaintext. */
  datatype Sealed = Sealed(nonce: Bytes, aad: Bytes, cipher: Bytes)
  type Log = map<Sealed, Bytes>
  type SealFn = (Bytes, Bytes, Bytes) -> Bytes

  /** Every ciphertext is its plaintext's length plus the tag. */
  ghost predicate Expands(seal: SealFn) {
    forall n, p, a :: |seal(n, p, a)| == |p| + OVERHEAD
  }

  // ---- big-endian words, nonces and associated data ----

  function BE32(v: nat): (s: Bytes)
    ensures |s| == 4
    ensures v < COUNTERS ==> ReadBE32(s) == v
  {
    BE32Value(v);
    [(v / 0x100_0000 % 256) as byte, (v / 0x1_0000 % 256) as byte, (v / 256 % 256) as byte, (v % 256) as byte]
  }

  lemma BE32Value(v: nat)
    ensures v < COUNTERS ==>
      (v / 0x100_0000 % 256) * 0x100_0000 + (v / 0x1_0000 % 256) * 0x1_0000 + (v / 256 % 256) * 256 + v % 256 == v
  {
    DivideTwice(v);
    DivideTwice(v / 256);
    assert v / 0x100_0000 == v / 0x1_0000 / 256;
  }

  lemma DivideTwice(v: nat)
    ensures v / 0x1_0000 == v / 256 / 256
  {
  }

  function ReadBE32(s: Bytes): (v: nat)
    requires |s| == 4
    ensures v < COUNTERS
  {
    s[0] as nat * 0x100_0000 + s[1] as nat * 0x1_0000 + s[2] as nat * 256 + s[3] as nat
  }

  /** A length or counter is written with its highest byte first. */
  lemma HighestByteFirst(v: nat)
    requires v < 0x1_0000_0000
    ensures var s := BE32(v);
            && v == ((s[0] as int * 256 + s[1] as int) * 256 + s[2] as int) * 256 + s[3] as int
            && ReadBE32(s) == v
  {
    BE32Value(v);
  }

  lemma BE32Inverse(s: Bytes)
    requires |s| == 4
    ensures BE32(ReadBE32(s)) == s
  {
    var a, b, c, d := s[0] as nat, s[1] as nat, s[2] as nat, s[3] as nat;
    Split8(a * 0x1_0000 + b * 256 + c, d);
    Split8(a * 256 + b, c);
    Split8(a, b);
    Split16(a * 256 + b, c * 256 + d);
    Split24(a, b * 0x1_0000 + c * 256 + d);
  }

  lemma Split8(x: nat, y: nat)
    requires y < 256
    ensures (x * 256 + y) / 256 == x && (x * 256 + y) % 256 == y
  {
  }

  lemma Split16(x: nat, y: nat)
    requires y < 0x1_0000
    ensures (x * 0x1_0000 + y) / 0x1_0000 == x
  {
  }

  lemma Split24(x: nat, y: nat)
    requires y < 0x100_0000
    ensures (x * 0x100_0000 + y) / 0x100_0000 == x
  {
  }

  function Nonce(prefix: Bytes, counter: nat): Bytes {
    prefix + BE32(counter)
  }

  function Aad(counter: nat, last: bool): Bytes {
    BE32(counter) + [if last then 1 else 0]
  }

  lemma NonceInjective(p: Bytes, c: nat, p': Bytes, c': nat)
    requires |p| == |p'| && c < COUNTERS && c' < COUNTERS
    requires Nonce(p, c) == Nonce(p', c')
    ensures p == p' && c == c'
  {
    assert p == Nonce(p, c)[..|p|] && p' == Nonce(p', c')[..|p|];
    assert BE32(c) == Nonce(p, c)[|p|..] && BE32(c') == Nonce(p', c')[|p|..];
  }

  lemma AadInjective(c: nat, last: bool, c': nat, last': bool)
    requires Aad(c, last) == Aad(c', last')
    ensures last == last' && (c < COUNTERS && c' < COUNTERS ==> c == c')
  {
    assert Aad(c, last)[4] == Aad(c', last')[4];
    assert BE32(c) == Aad(c, last)[..4] && BE32(c') == Aad(c', last')[..4];
  }

  // ---- what a complete encryption of a file is ----

  /** The file cut into chunks. The empty file is one empty chunk, and a file that is an exact
      multiple of the chunk size has no empty chunk after it. */
  function Chunks(file: Bytes): (cs: seq<Bytes>)
    ensures |cs| >= 1
  {
    if |file| <= CHUNK then [file] else [file[..CHUNK]] + Chunks(file[CHUNK..])
  }

  lemma {:induction false} ChunksOfFile(file: Bytes)
    ensures Concat(Chunks(file)) == file
    ensures forall i | 0 <= i < |Chunks(file)| :: |Chunks(file)[i]| <= CHUNK
  {
    if |file| <= CHUNK {
      assert Concat([file]) == file + Concat([]);
    } else {
      ChunksOfFile(file[CHUNK..]);
      assert Chunks(file)[1..] == Chunks(file[CHUNK..]);
    }
  }

  function Concat(cs: seq<Bytes>): Bytes {
    if cs == [] then [] else cs[0] + Concat(cs[1..])
  }

  function SealedChunk(seal: SealFn, prefix: Bytes, cs: seq<Bytes>, i: nat): Sealed
    requires i < |cs|
  {
    var nonce, aad := Nonce(prefix, i), Aad(i, i == |cs| - 1);
    Sealed(nonce, aad, seal(nonce, cs[i], aad))
  }

  function Frame(cipher: Bytes): Bytes {
    BE32(|cipher|) + cipher
  }

  function Body(seal: SealFn, prefix: Bytes, cs: seq<Bytes>, from: nat): Bytes
    decreases |cs| - from
  {
    if from >= |cs| then [] else Frame(SealedChunk(seal, prefix, cs, from).cipher) + Body(seal, prefix, cs, from + 1)
  }

  function Encrypted(seal: SealFn, prefix: Bytes, cs: seq<Bytes>): Bytes {
    MAGIC + prefix + Body(seal, prefix, cs, 0)
  }

  // ---- what the reader accepts ----

  function Open(log: Log, prefix: Bytes, counter: nat, cipher: Bytes, last: bool): Result {
    var k := Sealed(Nonce(prefix, counter), Aad(counter, last), cipher);
    if k in log then Ok(log[k]) else Err(NotAuthentic)
  }

  function Prepend(p: Bytes, r: Result): Result {
    if r.Ok? then Ok(p + r.plain) else r
  }

  /** A uint32 incremented. */
  function Increment(counter: nat): nat {
    if counter + 1 == COUNTERS then 0 else counter + 1
  }

  /** Reads chunks from `s`, the first at position `counter`; the counter wraps. */
  function DecryptFrom(log: Log, prefix: Bytes, counter: nat, s: Bytes): Result
    decreases |s|
  {
    if |s| < 4 then Err(Truncated) else
    var n := ReadBE32(s[..4]);
    if n < OVERHEAD || n > CHUNK + OVERHEAD then Err(ImpossibleChunkSize) else
    if |s| < 4 + n then Err(TruncatedInChunk) else
    var cipher, rest := s[4..4 + n], s[4 + n..];
    var asLast := Open(log, prefix, counter, cipher, true);
    if asLast.Ok? then (if rest == [] then asLast else Err(DataAfterLastChunk)) else
    var asMiddle := Open(log, prefix, counter, cipher, false);
    if asMiddle.Err? then asMiddle else
    Prepend(asMiddle.plain, DecryptFrom(log, prefix, Increment(counter), rest))
  }

  function Decrypt(log: Log, s: Bytes): Result {
    if |s| < |MAGIC| + PREFIX_LEN || s[..|MAGIC|] != MAGIC then Err(BadHeader)
    else DecryptFrom(log, s[|MAGIC|..|MAGIC| + PREFIX_LEN], 0, s[|MAGIC| + PREFIX_LEN..])
  }

  // ---- every encryption made under the key ----

  /** One call of encrypt on a file cut into `chunks`: the first `sealed` of them were sealed.
      Fewer than all of them means the call was cut short, by an I/O error or by running out
      of counters. */
  datatype Run = Run(chunks: seq<Bytes>, sealed: nat) {
    ghost predicate Complete() {
      sealed == |chunks|
    }
  }

  /** The calls of encrypt under this key, by the nonce prefix each drew: no two drew the same. */
  type Runs = map<Bytes, Run>

  ghost predicate ValidRun(prefix: Bytes, r: Run) {
    && |prefix| == PREFIX_LEN && r.sealed <= |r.chunks| && r.sealed <= COUNTERS
    && |r.chunks| >= 1 && forall i | 0 <= i < |r.chunks| :: |r.chunks[i]| <= CHUNK
  }

  ghost predicate SealedBy(seal: SealFn, prefix: Bytes, r: Run, i: nat, k: Sealed, p: Bytes) {
    i < r.sealed <= |r.chunks| && k == SealedChunk(seal, prefix, r.chunks, i) && p == r.chunks[i]
  }

  ghost predicate Explained(seal: SealFn, runs: Runs, k: Sealed, p: Bytes) {
    exists prefix, i: nat :: prefix in runs && SealedBy(seal, prefix, runs[prefix], i, k, p)
  }

  ghost predicate Recorded(seal: SealFn, log: Log, prefix: Bytes, r: Run) {
    forall i: nat | i < r.sealed && i < |r.chunks| ::
      var k := SealedChunk(seal, prefix, r.chunks, i);
      k in log && log[k] == r.chunks[i]
  }

  /** The log holds what the runs sealed and nothing else. */
  ghost predicate History(seal: SealFn, log: Log, runs: Runs) {
    && (forall prefix {:trigger ValidRun(prefix, runs[prefix])} | prefix in runs :: ValidRun(prefix, runs[prefix]))
    && (forall prefix {:trigger Recorded(seal, log, prefix, runs[prefix])} | prefix in runs ::
          Recorded(seal, log, prefix, runs[prefix]))
    && (forall k {:trigger Explained(seal, runs, k, log[k])} | k in log :: Explained(seal, runs, k, log[k]))
  }

  /** A new run, with nothing sealed yet, under a prefix no run has drawn. */
  lemma StartRun(seal: SealFn, log: Log, runs: Runs, prefix: Bytes, cs: seq<Bytes>)
    requires History(seal, log, runs) && prefix !in runs && ValidRun(prefix, Run(cs, 0))
    ensures History(seal, log, runs[prefix := Run(cs, 0)])
  {
    var runs' := runs[prefix := Run(cs, 0)];
    forall k | k in log
      ensures Explained(seal, runs', k, log[k])
    {
      assert Explained(seal, runs, k, log[k]);
      var p, i: nat :| p in runs && SealedBy(seal, p, runs[p], i, k, log[k]);
      assert SealedBy(seal, p, runs'[p], i, k, log[k]);
    }
  }

  /** Sealing the next chunk of a run overwrites nothing that any run sealed. */
  lemma SealNext(seal: SealFn, log: Log, runs: Runs, prefix: Bytes)
    requires History(seal, log, runs) && prefix in runs
    requires runs[prefix].sealed < |runs[prefix].chunks| && runs[prefix].sealed < COUNTERS
    ensures var Run(cs, n) := runs[prefix];
            History(seal, log[SealedChunk(seal, prefix, cs, n) := cs[n]], runs[prefix := Run(cs, n + 1)])
  {
    var Run(cs, n) := runs[prefix];
    var k := SealedChunk(seal, prefix, cs, n);
    var log', runs' := log[k := cs[n]], runs[prefix := Run(cs, n + 1)];
    forall p | p in runs'
      ensures ValidRun(p, runs'[p]) && Recorded(seal, log', p, runs'[p])
    {
      SealKeeps(seal, log, runs, prefix, p);
    }
    assert SealedBy(seal, prefix, runs'[prefix], n, k, log'[k]);
    forall k' | k' in log'
      ensures Explained(seal, runs', k', log'[k'])
    {
      if k' != k {
        assert Explained(seal, runs, k', log[k']);
        var p, i: nat :| p in runs && SealedBy(seal, p, runs[p], i, k', log[k']);
        assert SealedBy(seal, p, runs'[p], i, k', log'[k']);
      }
    }
  }

  lemma SealKeeps(seal: SealFn, log: Log, runs: Runs, prefix: Bytes, p: Bytes)
    requires History(seal, log, runs) && prefix in runs && p in runs
    requires runs[prefix].sealed < |runs[prefix].chunks| && runs[prefix].sealed < COUNTERS
    ensures var Run(cs, n) := runs[prefix];
            var r := if p == prefix then Run(cs, n + 1) else runs[p];
            ValidRun(p, r) && Recorded(seal, log[SealedChunk(seal, prefix, cs, n) := cs[n]], p, r)
  {
    var Run(cs, n) := runs[prefix];
    assert ValidRun(prefix, runs[prefix]) && ValidRun(p, runs[p]) && Recorded(seal, log, p, runs[p]);
    forall i: nat | i < runs[p].sealed && SealedChunk(seal, p, runs[p].chunks, i) == SealedChunk(seal, prefix, cs, n)
      ensures false
    {
      NonceInjective(p, i, prefix, n);
    }
  }

  /** Finds the position in the one run behind an entry that opens. */
  lemma Origin(seal: SealFn, log: Log, runs: Runs, prefix: Bytes, counter: nat, cipher: Bytes, last: bool)
    requires History(seal, log, runs) && |prefix| == PREFIX_LEN && counter < COUNTERS
    requires Open(log, prefix, counter, cipher, last).Ok?
    ensures prefix in runs && counter < runs[prefix].sealed <= |runs[prefix].chunks|
    ensures last <==> counter == |runs[prefix].chunks| - 1
    ensures cipher == SealedChunk(seal, prefix, runs[prefix].chunks, counter).cipher
    ensures Open(log, prefix, counter, cipher, last) == Ok(runs[prefix].chunks[counter])
  {
    var k := Sealed(Nonce(prefix, counter), Aad(counter, last), cipher);
    assert Explained(seal, runs, k, log[k]);
    var p, i: nat :| p in runs && SealedBy(seal, p, runs[p], i, k, log[k]);
    assert ValidRun(p, runs[p]);
    NonceInjective(prefix, counter, p, i);
    AadInjective(counter, last, i, i == |runs[p].chunks| - 1);
  }

  /** One turn of the reader's loop, on a stream that begins with a well-sized frame. */
  lemma ReadFrame(log: Log, prefix: Bytes, counter: nat, cipher: Bytes, rest: Bytes)
    requires OVERHEAD <= |cipher| <= CHUNK + OVERHEAD
    ensures var r := DecryptFrom(log, prefix, counter, Frame(cipher) + rest);
            var asLast := Open(log, prefix, counter, cipher, true);
            var asMiddle := Open(log, prefix, counter, cipher, false);
            r == if asLast.Ok? then (if rest == [] then asLast else Err(DataAfterLastChunk))
                 else if asMiddle.Err? then asMiddle
                 else Prepend(asMiddle.plain, DecryptFrom(log, prefix, Increment(counter), rest))
  {
    var s := Frame(cipher) + rest;
    assert s[..4] == BE32(|cipher|) && s[4..4 + |cipher|] == cipher && s[4 + |cipher|..] == rest;
  }

  /** A stream the reader accepts begins with a well-sized frame. */
  lemma SplitFrame(log: Log, prefix: Bytes, counter: nat, s: Bytes) returns (cipher: Bytes, rest: Bytes)
    requires DecryptFrom(log, prefix, counter, s).Ok?
    ensures OVERHEAD <= |cipher| <= CHUNK + OVERHEAD && s == Frame(cipher) + rest
  {
    var n := ReadBE32(s[..4]);
    cipher, rest := s[4..4 + n], s[4 + n..];
    BE32Inverse(s[..4]);
    assert s == s[..4] + cipher + rest;
  }

  /** Whatever the reader accepts from position `counter` on is the tail of a complete run. */
  lemma {:induction false} AcceptedTail(seal: SealFn, log: Log, runs: Runs, prefix: Bytes, counter: nat, s: Bytes)
    requires History(seal, log, runs) && |prefix| == PREFIX_LEN && counter < COUNTERS
    requires DecryptFrom(log, prefix, counter, s).Ok?
    ensures prefix in runs && runs[prefix].Complete() && counter < |runs[prefix].chunks|
    ensures s == Body(seal, prefix, runs[prefix].chunks, counter)
    ensures DecryptFrom(log, prefix, counter, s) == Ok(Concat(runs[prefix].chunks[counter..]))
    decreases |s|
  {
    var cipher, rest := SplitFrame(log, prefix, counter, s);
    ReadFrame(log, prefix, counter, cipher, rest);
    var last := Open(log, prefix, counter, cipher, true).Ok?;
    Origin(seal, log, runs, prefix, counter, cipher, last);
    var cs := runs[prefix].chunks;
    assert ValidRun(prefix, runs[prefix]) && cs[counter..][1..] == cs[counter + 1..];
    if !last {
      AcceptedTail(seal, log, runs, prefix, Increment(counter), rest);
    }
  }

  /** The reader gets through everything a complete run wrote from position `i` on. */
  lemma {:induction false} CompleteTail(seal: SealFn, log: Log, runs: Runs, prefix: Bytes, i: nat)
    requires Expands(seal) && History(seal, log, runs) && prefix in runs && runs[prefix].Complete()
    requires i < |runs[prefix].chunks|
    ensures DecryptFrom(log, prefix, i, Body(seal, prefix, runs[prefix].chunks, i))
         == Ok(Concat(runs[prefix].chunks[i..]))
    decreases |runs[prefix].chunks| - i
  {
    var cs := runs[prefix].chunks;
    var cipher := SealedChunk(seal, prefix, cs, i).cipher;
    assert ValidRun(prefix, runs[prefix]) && Recorded(seal, log, prefix, runs[prefix]);
    ReadFrame(log, prefix, i, cipher, Body(seal, prefix, cs, i + 1));
    assert Open(log, prefix, i, cipher, i == |cs| - 1) == Ok(cs[i]);
    assert cs[i..][1..] == cs[i + 1..];
    if i < |cs| - 1 {
      if Open(log, prefix, i, cipher, true).Ok? {
        Origin(seal, log, runs, prefix, i, cipher, true);
      }
      CompleteTail(seal, log, runs, prefix, i + 1);
    }
  }

  /** `s` is the whole output of the run that drew `prefix`, and its file was `file`. */
  ghost predicate IsOutputOf(seal: SealFn, runs: Runs, prefix: Bytes, s: Bytes, file: Bytes) {
    && prefix in runs && runs[prefix].Complete()
    && s == Encrypted(seal, prefix, runs[prefix].chunks) && Concat(runs[prefix].chunks) == file
  }

  lemma SplitInThree(s: Bytes, a: nat, b: nat)
    requires a <= b <= |s|
    ensures s == s[..a] + s[a..b] + s[b..]
  {
  }

  lemma AcceptedIsOutput(seal: SealFn, log: Log, runs: Runs, s: Bytes)
    requires History(seal, log, runs) && Decrypt(log, s).Ok?
    ensures IsOutputOf(seal, runs, s[|MAGIC|..|MAGIC| + PREFIX_LEN], s, Decrypt(log, s).plain)
  {
    var h := |MAGIC| + PREFIX_LEN;
    var prefix := s[|MAGIC|..h];
    AcceptedTail(seal, log, runs, prefix, 0, s[h..]);
    assert runs[prefix].chunks[0..] == runs[prefix].chunks;
    SplitInThree(s, |MAGIC|, h);
  }

  lemma OutputIsAccepted(seal: SealFn, log: Log, runs: Runs, prefix: Bytes, s: Bytes, file: Bytes)
    requires Expands(seal) && History(seal, log, runs) && IsOutputOf(seal, runs, prefix, s, file)
    ensures Decrypt(log, s) == Ok(file)
  {
    var h := |MAGIC| + PREFIX_LEN;
    var cs := runs[prefix].chunks;
    assert cs[0..] == cs && ValidRun(prefix, runs[prefix]);
    CompleteTail(seal, log, runs, prefix, 0);
    assert s[..|MAGIC|] == MAGIC && s[|MAGIC|..h] == prefix && s[h..] == Body(seal, prefix, cs, 0);
  }

  /** The reader succeeds on exactly the complete outputs, and returns the file. */
  lemma DecryptsExactlyCompleteRuns(seal: SealFn, log: Log, runs: Runs, s: Bytes, file: Bytes)
    requires Expands(seal) && History(seal, log, runs)
    ensures Decrypt(log, s) == Ok(file) <==> exists prefix :: IsOutputOf(seal, runs, prefix, s, file)
  {
    if Decrypt(log, s) == Ok(file) {
      AcceptedIsOutput(seal, log, runs, s);
    }
    if prefix :| IsOutputOf(seal, runs, prefix, s, file) {
      OutputIsAccepted(seal, log, runs, prefix, s, file);
    }
  }

  /** No second stream with the same header is accepted: not a truncation, an extension, a
      reordering or a mixture of chunks, and not the part an aborted upload left behind. */
  lemma OneStreamPerHeader(seal: SealFn, log: Log, runs: Runs, s: Bytes, s': Bytes)
    requires History(seal, log, runs)
    requires Decrypt(log, s).Ok? && Decrypt(log, s').Ok?
    requires s[..|MAGIC| + PREFIX_LEN] == s'[..|MAGIC| + PREFIX_LEN]
    ensures s == s'
  {
    var h := |MAGIC| + PREFIX_LEN;
    AcceptedTail(seal, log, runs, s[|MAGIC|..h], 0, s[h..]);
    AcceptedTail(seal, log, runs, s'[|MAGIC|..h], 0, s'[h..]);
    assert s[|MAGIC|..h] == s[..h][|MAGIC|..] == s'[..h][|MAGIC|..] == s'[|MAGIC|..h];
    assert s == s[..h] + s[h..] && s' == s'[..h] + s'[h..];
  }

  // ---- what the reader says is wrong ----

  lemma NextFrame(seal: SealFn, prefix: Bytes, cs: seq<Bytes>, i: nat, extra: Bytes)
    requires i < |cs|
    ensures Body(seal, prefix, cs, i) + extra == Frame(SealedChunk(seal, prefix, cs, i).cipher) + (Body(seal, prefix, cs, i + 1) + extra)
  {
  }

  /** At any chunk of a complete run: its cipher is well sized, and opens as what it is and as nothing else. */
  lemma OpensAsItself(seal: SealFn, log: Log, runs: Runs, prefix: Bytes, i: nat)
    requires Expands(seal) && History(seal, log, runs) && prefix in runs && runs[prefix].Complete() && i < |runs[prefix].chunks|
    ensures var cs := runs[prefix].chunks;
            var cipher := SealedChunk(seal, prefix, cs, i).cipher;
            && OVERHEAD <= |cipher| <= CHUNK + OVERHEAD
            && (Open(log, prefix, i, cipher, true).Ok? <==> i == |cs| - 1)
            && (i < |cs| - 1 ==> Open(log, prefix, i, cipher, false) == Ok(cs[i]))
  {
    var cs := runs[prefix].chunks;
    var cipher := SealedChunk(seal, prefix, cs, i).cipher;
    assert ValidRun(prefix, runs[prefix]) && Recorded(seal, log, prefix, runs[prefix]);
    assert Open(log, prefix, i, cipher, i == |cs| - 1) == Ok(cs[i]);
    if Open(log, prefix, i, cipher, true).Ok? {
      Origin(seal, log, runs, prefix, i, cipher, true);
    }
  }

  lemma {:induction false} ExtendedTail(seal: SealFn, log: Log, runs: Runs, prefix: Bytes, i: nat, extra: Bytes)
    requires Expands(seal) && History(seal, log, runs) && prefix in runs && runs[prefix].Complete()
    requires i < |runs[prefix].chunks| && extra != []
    ensures DecryptFrom(log, prefix, i, Body(seal, prefix, runs[prefix].chunks, i) + extra) == Err(DataAfterLastChunk)
    decreases |runs[prefix].chunks| - i
  {
    var cs := runs[prefix].chunks;
    assert ValidRun(prefix, runs[prefix]);
    OpensAsItself(seal, log, runs, prefix, i);
    NextFrame(seal, prefix, cs, i, extra);
    ReadFrame(log, prefix, i, SealedChunk(seal, prefix, cs, i).cipher, Body(seal, prefix, cs, i + 1) + extra);
    if i < |cs| - 1 {
      ExtendedTail(seal, log, runs, prefix, i + 1, extra);
    }
  }

  lemma CutInFrame(log: Log, prefix: Bytes, counter: nat, cipher: Bytes, t: Bytes)
    requires OVERHEAD <= |cipher| <= CHUNK + OVERHEAD && t <= Frame(cipher) && t != Frame(cipher)
    ensures DecryptFrom(log, prefix, counter, t) == Err(if |t| < 4 then Truncated else TruncatedInChunk)
  {
    if |t| >= 4 {
      assert t[..4] == Frame(cipher)[..4] == BE32(|cipher|);
    }
  }

  lemma {:induction false} CutTail(seal: SealFn, log: Log, runs: Runs, prefix: Bytes, i: nat, t: Bytes)
    requires Expands(seal) && History(seal, log, runs) && prefix in runs && runs[prefix].Complete()
    requires i < |runs[prefix].chunks| && t < Body(seal, prefix, runs[prefix].chunks, i)
    ensures DecryptFrom(log, prefix, i, t) in [Err(Truncated), Err(TruncatedInChunk)]
    decreases |runs[prefix].chunks| - i
  {
    var cs := runs[prefix].chunks;
    assert ValidRun(prefix, runs[prefix]);
    var cipher, rest := SealedChunk(seal, prefix, cs, i).cipher, Body(seal, prefix, cs, i + 1);
    OpensAsItself(seal, log, runs, prefix, i);
    var n := |Frame(cipher)|;
    if |t| < n {
      assert t <= Frame(cipher);
      CutInFrame(log, prefix, i, cipher, t);
    } else {
      var t' := t[n..];
      assert t == Frame(cipher) + t' by { assert t[..n] == Frame(cipher); }
      assert t' < rest;
      ReadFrame(log, prefix, i, cipher, t');
      CutTail(seal, log, runs, prefix, i + 1, t');
    }
  }

  /** A complete output with anything after it is reported as having data after the last chunk. */
  lemma ExtensionIsReported(seal: SealFn, log: Log, runs: Runs, prefix: Bytes, s: Bytes, file: Bytes, extra: Bytes)
    requires Expands(seal) && History(seal, log, runs) && IsOutputOf(seal, runs, prefix, s, file) && extra != []
    ensures Decrypt(log, s + extra) == Err(DataAfterLastChunk)
  {
    var h := |MAGIC| + PREFIX_LEN;
    assert ValidRun(prefix, runs[prefix]);
    var t := s + extra;
    assert t[..|MAGIC|] == MAGIC && t[|MAGIC|..h] == prefix && t[h..] == Body(seal, prefix, runs[prefix].chunks, 0) + extra;
    ExtendedTail(seal, log, runs, prefix, 0, extra);
  }

  /** And one cut short anywhere as truncated, or as having no header if the cut is in that. */
  lemma TruncationIsReported(seal: SealFn, log: Log, runs: Runs, prefix: Bytes, s: Bytes, file: Bytes, t: Bytes)
    requires Expands(seal) && History(seal, log, runs) && IsOutputOf(seal, runs, prefix, s, file) && t < s
    ensures if |t| < 16 then Decrypt(log, t) == Err(BadHeader) else Decrypt(log, t) in [Err(Truncated), Err(TruncatedInChunk)]
  {
    var h := |MAGIC| + PREFIX_LEN;
    assert ValidRun(prefix, runs[prefix]);
    if |t| >= h {
      assert s[..|MAGIC|] == MAGIC && s[|MAGIC|..h] == prefix && s[h..] == Body(seal, prefix, runs[prefix].chunks, 0);
      assert t[..|MAGIC|] == s[..|MAGIC|] && t[|MAGIC|..h] == s[|MAGIC|..h] && t[h..] < s[h..];
      CutTail(seal, log, runs, prefix, 0, t[h..]);
    }
  }

  // ---- the layout ----

  lemma {:induction false} BodyLength(seal: SealFn, prefix: Bytes, cs: seq<Bytes>, i: nat)
    requires Expands(seal) && i <= |cs|
    ensures |Body(seal, prefix, cs, i)| == |Concat(cs[i..])| + 20 * (|cs| - i)
    decreases |cs| - i
  {
    if i < |cs| {
      BodyLength(seal, prefix, cs, i + 1);
      assert cs[i..][1..] == cs[i + 1..];
    }
  }

  /** A backup object: eight bytes of magic, the eight of its prefix, and twenty for each chunk of
      at most a mebibyte beside the file's own. */
  lemma StreamLayout(seal: SealFn, prefix: Bytes, file: Bytes)
    requires Expands(seal) && |prefix| == 8
    ensures var s := Encrypted(seal, prefix, Chunks(file));
            && |s| == 16 + |file| + 20 * |Chunks(file)|
            && s[..8] == [0x4F, 0x46, 0x42, 0x42, 0x4B, 0x31, 0x00, 0x00] && s[8..16] == prefix
  {
    BodyLength(seal, prefix, Chunks(file), 0);
    assert Chunks(file)[0..] == Chunks(file);
    ChunksOfFile(file);
  }

  /** Nothing is ever sealed twice under one nonce, within a run or across runs. */
  lemma NoncesNeverRepeat(seal: SealFn, log: Log, runs: Runs, p: Bytes, i: nat, p': Bytes, i': nat)
    requires History(seal, log, runs)
    requires p in runs && i < runs[p].sealed && p' in runs && i' < runs[p'].sealed
    requires Nonce(p, i) == Nonce(p', i')
    ensures p == p' && i == i'
  {
    assert ValidRun(p, runs[p]) && ValidRun(p', runs[p']);
    NonceInjective(p, i, p', i');
  }

  /** An object of at most 2^32 chunks is one of at most 2^52 bytes. */
  lemma {:induction false} ChunkCount(file: Bytes)
    ensures |file| <= |Chunks(file)| * 0x10_0000
    ensures |Chunks(file)| > 1 ==> (|Chunks(file)| - 1) * 0x10_0000 < |file|
  {
    if |file| > CHUNK {
      ChunkCount(file[CHUNK..]);
    }
  }
}
