/**
 The share store on disk (services/mpc-party/file_seal.go): one sealed file for each party and
 ceremony, written to a temporary file and renamed, overwritten with zeros and removed when the
 share is retired.
 */
module ShareFiles {
  import opened Wrappers
  import opened Decimals

  /** Whose share: a party and a ceremony. */
  datatype Slot = Slot(party: int, ceremony: string)

  /** What is encrypted, the share and its context as one value. */
  datatype Payload = Payload(slot: Slot, value: string)

  datatype SealedFile = SealedFile(version: int, nonce: string, data: string)

  /** What a ciphertext was made from. */
  datatype Entry = Entry(aad: string, payload: Payload)

  const VERSION := 1

  // ---- names ----

  /** A ceremony id that can be a file name. */
  predicate IsFileName(ceremony: string) {
    ceremony != "" && ceremony != "." && ceremony != ".." &&
    forall i | 0 <= i < |ceremony| :: ceremony[i] != '/' && ceremony[i] != '\\' && ceremony[i] != '\0'
  }

  function Folder(dir: string, party: int): string {
    dir + "/party-" + String(party) + "/"
  }

  function Path(dir: string, slot: Slot): string {
    Folder(dir, slot.party) + slot.ceremony + ".sealed"
  }

  /** A temporary file beside the share, with a name ending in a random number. */
  function TempPath(dir: string, party: int, random: nat): string {
    Folder(dir, party) + ".sealing-" + Digits(random)
  }

  function Aad(slot: Slot): string {
    "openfireblocks-share-v1|party-" + String(slot.party) + "|" + slot.ceremony
  }

  // ---- names are told apart ----

  lemma LongerHasSeparator(s: string, t: string, separator: char, x: string, y: string)
    requires s + [separator] + x == t + [separator] + y && |s| < |t|
    ensures t[|s|] == separator
  {
    assert (s + [separator] + x)[|s|] == separator && (t + [separator] + y)[|s|] == t[|s|];
  }

  lemma SameLength(s: string, t: string, separator: char, x: string, y: string)
    requires s + [separator] + x == t + [separator] + y && |s| == |t|
    ensures s == t && x == y
  {
    var u := s + [separator] + x;
    assert s == u[..|s|] && t == u[..|t|];
    assert x == u[|s| + 1..] && y == u[|t| + 1..];
  }

  /** A printed number does not contain a separator, so it can be told from what follows. */
  lemma NumberThenRest(a: int, b: int, separator: char, x: string, y: string)
    requires !IsDigit(separator) && separator != '-'
    requires String(a) + [separator] + x == String(b) + [separator] + y
    ensures a == b && x == y
  {
    var s, t := String(a), String(b);
    NumberChars(a);
    NumberChars(b);
    if |s| < |t| {
      LongerHasSeparator(s, t, separator, x, y);
    } else if |t| < |s| {
      LongerHasSeparator(t, s, separator, y, x);
    } else {
      SameLength(s, t, separator, x, y);
      StringInjective(a, b);
    }
  }

  lemma NumberChars(a: int)
    ensures forall i | 0 <= i < |String(a)| :: IsDigit(String(a)[i]) || String(a)[i] == '-'
  {
    var d := Digits(Abs(a));
    assert AreDigits(d);
    forall i | 0 <= i < |String(a)| ensures IsDigit(String(a)[i]) || String(a)[i] == '-' {
      if a < 0 {
        assert i > 0 ==> String(a)[i] == d[i - 1] && IsDigit(d[i - 1]);
      } else {
        assert IsDigit(d[i]);
      }
    }
  }

  lemma StringInjective(a: int, b: int)
    requires String(a) == String(b)
    ensures a == b
  {
    StringIs(a);
    StringIs(b);
    DigitsWrite(Abs(a));
    DigitsWrite(Abs(b));
  }

  lemma SamePrefix(p: string, x: string, y: string)
    requires p + x == p + y
    ensures x == y
  {
    assert (p + x)[|p|..] == x && (p + y)[|p|..] == y;
  }

  /** No two shares have the same associated data. */
  lemma AadInjective(a: Slot, b: Slot)
    requires Aad(a) == Aad(b)
    ensures a == b
  {
    var p := "openfireblocks-share-v1|party-";
    assert Aad(a) == p + (String(a.party) + "|" + a.ceremony);
    assert Aad(b) == p + (String(b.party) + "|" + b.ceremony);
    SamePrefix(p, String(a.party) + "|" + a.ceremony, String(b.party) + "|" + b.ceremony);
    NumberThenRest(a.party, b.party, '|', a.ceremony, b.ceremony);
  }

  /** Nor the same file. */
  lemma PathInjective(dir: string, a: Slot, b: Slot)
    requires Path(dir, a) == Path(dir, b)
    ensures a == b
  {
    var p, x, y := dir + "/party-", a.ceremony + ".sealed", b.ceremony + ".sealed";
    assert Path(dir, a) == p + (String(a.party) + "/" + x);
    assert Path(dir, b) == p + (String(b.party) + "/" + y);
    SamePrefix(p, String(a.party) + "/" + x, String(b.party) + "/" + y);
    NumberThenRest(a.party, b.party, '/', x, y);
    assert a.ceremony == x[..|x| - 7] && b.ceremony == y[..|y| - 7];
  }

  /** No character that ends a name or leads out of a folder. */
  ghost predicate IsPlain(name: string) {
    forall c :: c in name ==> c != '/' && c != '\\' && c != '\0'
  }

  /** A ceremony id is accepted if and only if it is a name at all, and the file for it is a plain name
      right in the folder of its party. */
  lemma StaysInItsFolderExactly(dir: string, slot: Slot)
    ensures IsFileName(slot.ceremony) <==>
            && slot.ceremony != "" && slot.ceremony != "." && slot.ceremony != ".."
            && exists name :: Path(dir, slot) == dir + "/party-" + String(slot.party) + "/" + name && IsPlain(name)
  {
    var folder, file := dir + "/party-" + String(slot.party) + "/", slot.ceremony + ".sealed";
    assert Path(dir, slot) == folder + file;
    assert IsPlain(file) <==> IsPlain(slot.ceremony) by {
      assert forall c :: c in file <==> c in slot.ceremony || c in ".sealed";
    }
    if name :| Path(dir, slot) == folder + name && IsPlain(name) {
      SamePrefix(folder, file, name);
      assert forall i | 0 <= i < |slot.ceremony| :: slot.ceremony[i] in slot.ceremony;
    }
  }

  /** And no temporary file is a share. */
  lemma TempIsNoShare(dir: string, party: int, random: nat, slot: Slot)
    ensures TempPath(dir, party, random) != Path(dir, slot)
  {
    var t, s := TempPath(dir, party, random), Path(dir, slot);
    var d := Digits(random);
    assert t[|t| - 1] == d[|d| - 1] && IsDigit(d[|d| - 1]);
    assert s[|s| - 1] == 'd';
  }

  // ---- loading ----

  /** How a sealed file is written down and read: not part of this model beyond that what was
      written is read back, that a written file begins with an opening brace, and that nothing
      else is read as one. */
  datatype Codec = Codec(encode: SealedFile -> string, decode: string -> Option<SealedFile>)

  ghost predicate IsCodec(c: Codec) {
    && (forall f :: c.decode(c.encode(f)) == Some(f))
    && (forall s :: c.decode(s).Some? ==> s != "" && s[0] == '{')
  }

  /** An ideal cipher opens just what was sealed, under the associated data it was sealed with. */
  function Open(log: map<SealedFile, Entry>, f: SealedFile, aad: string): Option<Payload> {
    if f in log && log[f].aad == aad then Some(log[f].payload) else None
  }

  function LoadShare(dir: string, c: Codec, files: map<string, string>, log: map<SealedFile, Entry>, slot: Slot): Option<string> {
    if !IsFileName(slot.ceremony) || Path(dir, slot) !in files then None else
    match c.decode(files[Path(dir, slot)])
    case None => None
    case Some(f) =>
      if f.version != VERSION then None else
      match Open(log, f, Aad(slot))
      case None => None
      case Some(p) => if p.slot != slot then None else Some(p.value)
  }

  /** Everything sealed is under the associated data of its own slot. */
  ghost predicate LogOk(log: map<SealedFile, Entry>) {
    forall f {:trigger log[f]} | f in log :: log[f].aad == Aad(log[f].payload.slot)
  }

  /** Whatever files there are and wherever they have been moved, what loads for a slot is
      something that was sealed for that slot. */
  lemma LoadsOnlyItsOwn(dir: string, c: Codec, files: map<string, string>, log: map<SealedFile, Entry>, slot: Slot)
    requires LogOk(log) && LoadShare(dir, c, files, log, slot).Some?
    ensures exists f :: f in log && log[f] == Entry(Aad(slot), Payload(slot, LoadShare(dir, c, files, log, slot).value))
  {
    var f := c.decode(files[Path(dir, slot)]).value;
    assert f in log && log[f].aad == Aad(slot);
  }

  /** Nothing loads for an id that is no file name, nor from a file of another version. */
  lemma LoadsOnlyVersionOne(dir: string, c: Codec, files: map<string, string>, log: map<SealedFile, Entry>, slot: Slot)
    requires LoadShare(dir, c, files, log, slot).Some?
    ensures slot.ceremony != "" && slot.ceremony != "." && slot.ceremony != ".." && Path(dir, slot) in files
    ensures c.decode(files[Path(dir, slot)]).Some? && c.decode(files[Path(dir, slot)]).value.version == 1
  {
  }

  /** So another slot's file put in its place does not load at all. */
  lemma MovedFileDoesNotLoad(dir: string, c: Codec, files: map<string, string>, log: map<SealedFile, Entry>, slot: Slot, other: Slot)
    requires LogOk(log) && slot != other && LoadShare(dir, c, files, log, other).Some?
    requires Path(dir, slot) in files && files[Path(dir, slot)] == files[Path(dir, other)]
    ensures LoadShare(dir, c, files, log, slot).None?
  {
    if Aad(slot) == Aad(other) {
      AadInjective(slot, other);
    }
  }

  // ---- the store ----

  /** A nonce nothing sealed or stored carries: nonces are random. */
  ghost predicate FreshNonce(c: Codec, files: map<string, string>, log: map<SealedFile, Entry>, nonce: string) {
    && (forall f | f in log :: f.nonce != nonce)
    && (forall p {:trigger files[p]} | p in files && c.decode(files[p]).Some? :: c.decode(files[p]).value.nonce != nonce)
  }

  /** A new entry in the log, and a new file that is no share, leave what loads. */
  lemma SealingLeaves(dir: string, c: Codec, files: map<string, string>, log: map<SealedFile, Entry>, f: SealedFile, e: Entry, slot: Slot)
    requires FreshNonce(c, files, log, f.nonce)
    ensures LoadShare(dir, c, files, log[f := e], slot) == LoadShare(dir, c, files, log, slot)
  {
  }

  lemma OtherFileLeaves(dir: string, c: Codec, files: map<string, string>, files': map<string, string>, log: map<SealedFile, Entry>, slot: Slot)
    requires Path(dir, slot) in files <==> Path(dir, slot) in files'
    requires Path(dir, slot) in files ==> files'[Path(dir, slot)] == files[Path(dir, slot)]
    ensures LoadShare(dir, c, files', log, slot) == LoadShare(dir, c, files, log, slot)
  {
  }

  function ZeroBytes(n: nat): (z: string)
    ensures |z| == n && forall i | 0 <= i < n :: z[i] == '\0'
  {
    if n == 0 then "" else ['\0'] + ZeroBytes(n - 1)
  }

  class ShareStore {
    const dir: string
    const codec: Codec
    const seal: (string, Payload, string) -> string  // of the nonce, the payload and the associated data
    var files: map<string, string>
    var log: map<SealedFile, Entry>

    constructor (dir: string, codec: Codec, seal: (string, Payload, string) -> string, files: map<string, string>)
      ensures this.dir == dir && this.codec == codec && this.seal == seal && this.files == files && log == map[]
    {
      this.dir, this.codec, this.seal, this.files, log := dir, codec, seal, files, map[];
    }

    ghost predicate Valid()
      reads this
    {
      IsCodec(codec) && LogOk(log)
    }

    function Holds(slot: Slot): Option<string>
      reads this
    {
      LoadShare(dir, codec, files, log, slot)
    }

    method Load(slot: Slot) returns (r: Option<string>)
      ensures r == Holds(slot)
    {
      if !IsFileName(slot.ceremony) {
        return None;
      }
      var path := Path(dir, slot);
      if path !in files {
        return None;
      }
      var read := codec.decode(files[path]);
      if read.None? || read.value.version != VERSION {
        return None;
      }
      var plain := Open(log, read.value, Aad(slot));
      if plain.None? || plain.value.slot != slot {
        return None;
      }
      return Some(plain.value.value);
    }

    /** Puts a file in place: makes a temporary file, writes it, syncs it and renames it. The
        process dies, or a step fails, after `steps` of these. Until it is synced, only the first
        `kept` characters of the temporary file may be on disk; it is removed if the process is
        alive to do so. */
    method Replace(temp: string, path: string, out: string, steps: nat, kept: nat, dies: bool) returns (ok: bool)
      requires temp != path && temp !in files
      modifies this`files
      ensures ok <==> steps >= 4
      ensures ok ==> path in files && files[path] == out
      ensures forall p | p != temp && (p != path || !ok) ::
        (p in files <==> p in old(files)) && (p in files ==> files[p] == old(files)[p])
    {
      if steps >= 1 {
        files := files[temp := ""];
      }
      if steps >= 2 {
        files := files[temp := if dies && steps < 3 && kept < |out| then out[..kept] else out];
      }
      ok := steps >= 4;
      if ok {
        files := (files - {temp})[path := files[temp]];
      } else if !dies {
        files := files - {temp};
      }
    }

    /** Seals a share; cut short anywhere, it leaves the share that was there. */
    method Seal(slot: Slot, value: string, nonce: string, random: nat, steps: nat, kept: nat, dies: bool) returns (ok: bool)
      requires Valid() && FreshNonce(codec, files, log, nonce) && TempPath(dir, slot.party, random) !in files
      modifies this
      ensures Valid()
      ensures ok <==> IsFileName(slot.ceremony) && steps >= 4
      ensures Holds(slot) == if ok then Some(value) else old(Holds(slot))
      ensures forall other | other != slot :: Holds(other) == old(Holds(other))
    {
      if !IsFileName(slot.ceremony) {
        return false;
      }
      var payload, aad := Payload(slot, value), Aad(slot);
      var sealed := SealedFile(VERSION, nonce, seal(nonce, payload, aad));
      forall any ensures LoadShare(dir, codec, files, log[sealed := Entry(aad, payload)], any) == Holds(any) {
        SealingLeaves(dir, codec, files, log, sealed, Entry(aad, payload), any);
      }
      log := log[sealed := Entry(aad, payload)];
      var temp, path := TempPath(dir, slot.party, random), Path(dir, slot);
      ghost var before := files;
      TempIsNoShare(dir, slot.party, random, slot);
      ok := Replace(temp, path, codec.encode(sealed), steps, kept, dies);
      forall other | other != slot || !ok ensures Holds(other) == old(Holds(other)) {
        TempIsNoShare(dir, slot.party, random, other);
        if Path(dir, other) == path {
          PathInjective(dir, other, slot);
        }
        OtherFileLeaves(dir, codec, before, files, log, other);
      }
    }

    /** Retires a share: writes `zeros` zeros over the file, all of them unless the write fails or
        the process dies, and removes it unless it dies first. */
    method Retire(slot: Slot, zeros: nat, dies: bool) returns (ok: bool)
      requires Valid()
      modifies this
      ensures Valid() && log == old(log)
      ensures ok <==> IsFileName(slot.ceremony) && (Path(dir, slot) !in old(files) || !dies)
      ensures Holds(slot) == None || (!ok && zeros == 0 && Holds(slot) == old(Holds(slot)))
      ensures ok ==> Path(dir, slot) !in files
      ensures IsFileName(slot.ceremony) && Path(dir, slot) in old(files) && dies ==>
                && Path(dir, slot) in files
                && var was, left := old(files)[Path(dir, slot)], files[Path(dir, slot)];
                   |left| == |was| && forall i | 0 <= i < |was| :: left[i] == if i < zeros then '\0' else was[i]
      ensures forall other | other != slot :: Holds(other) == old(Holds(other))
    {
      if !IsFileName(slot.ceremony) {
        return false;
      }
      var path := Path(dir, slot);
      if path !in files {
        return true;
      }
      ghost var before := files;
      var n := if zeros < |files[path]| then zeros else |files[path]|;
      files := files[path := ZeroBytes(n) + files[path][n..]];
      ok := !dies;
      if ok {
        files := files - {path};
      }
      forall other | other != slot ensures Holds(other) == old(Holds(other)) {
        if Path(dir, other) == path {
          PathInjective(dir, other, slot);
        }
        OtherFileLeaves(dir, codec, before, files, log, other);
      }
      if n == 0 {
        assert ZeroBytes(0) + before[path][0..] == before[path];
      }
    }
  }
}
