/**
 A backup's files and their checksums, sent off-site and fetched back
 (services/backup/backup_manager.go, services/backup/offsite_checksums.go).

 The checksum record's JSON encoding is a pair of functions of which only the round trip is
 known; the digest is a function that is never the empty string.
 */
module OffsiteBackup {
  import opened Wrappers
  import opened OffsiteFormat
  import opened OffsiteStores

  // The files a restore needs, in the order they are fetched.
  const NAMES: seq<Name> := [Postgres, Vault, Manifest]

  datatype ChecksumRecord = ChecksumRecord(backupID: string, files: map<Name, Receipt>)
  type Encode = ChecksumRecord -> Bytes
  type Decode = Bytes -> Option<ChecksumRecord>
  type Tags = map<Name, string>

  ghost predicate Codec(encode: Encode, decode: Decode) {
    forall r :: decode(encode(r)) == Some(r)
  }

  ghost predicate Digest(sha: Bytes -> string) {
    forall b :: sha(b) != ""
  }

  ghost predicate CollisionFree(sha: Bytes -> string) {
    forall b, b' :: sha(b) == sha(b') ==> b == b'
  }

  /** The checksum a caller supplied, or a record holds, for a file; "" for none. The tag
      offsite_<name>_sha256 is keyed by the name here. */
  function Tag(tags: Tags, name: Name): string {
    if name in tags then tags[name] else ""
  }

  function Sum(rec: ChecksumRecord, name: Name): string {
    if name in rec.files then rec.files[name].sha256 else ""
  }

  predicate Covers(rec: ChecksumRecord) {
    forall i | 0 <= i < |NAMES| :: Sum(rec, NAMES[i]) != ""
  }

  /** The record stored beside a backup: decryptable, for this backup, and covering every file. */
  function Stored(log: Log, objects: Objects, sha: Bytes -> string, decode: Decode, id: string): Option<ChecksumRecord> {
    var raw := Fetched(log, objects, sha, Key(id, Checksums), "");
    if raw.None? then None else
    var rec := decode(raw.value);
    if rec.Some? && rec.value.backupID == id && Covers(rec.value) then rec else None
  }

  /** The caller's checksum wins; without one, the stored one is used. */
  function Want(tags: Tags, stored: Option<ChecksumRecord>, name: Name): string {
    if Tag(tags, name) != "" || stored.None? then Tag(tags, name) else Sum(stored.value, name)
  }

  predicate NeedsRecord(tags: Tags) {
    exists i | 0 <= i < |NAMES| :: Tag(tags, NAMES[i]) == ""
  }

  /** Which files a fetch hands back, if it hands back any. */
  ghost predicate FetchYields(log: Log, objects: Objects, sha: Bytes -> string, decode: Decode, id: string,
                              tags: Tags, out: map<Name, Bytes>)
  {
    var stored := if NeedsRecord(tags) then Stored(log, objects, sha, decode, id) else None;
    && (NeedsRecord(tags) ==> stored.Some?)
    && out.Keys == {Postgres, Vault, Manifest}
    && forall i | 0 <= i < |NAMES| :: Checked(log, objects, sha, id, tags, stored, NAMES[i]) == Some(out[NAMES[i]])
  }

  /** A file that could be checked against a checksum, and passed. */
  function Checked(log: Log, objects: Objects, sha: Bytes -> string, id: string,
                   tags: Tags, stored: Option<ChecksumRecord>, name: Name): Option<Bytes>
  {
    var want := Want(tags, stored, name);
    if want == "" then None else Fetched(log, objects, sha, Key(id, name), want)
  }

  // ---- when an upload goes through, and what is recorded of it ----

  /** The object store takes the upload, the file fits the counter, and no read or write fails. */
  predicate Goes(upload: Upload, operations: nat, file: Bytes) {
    upload.Taken? && |Chunks(file)| <= 0x1_0000_0000 && operations >= 2 + 3 * |Chunks(file)|
  }

  /** So do the first `n` files. */
  ghost predicate AllGo(uploads: seq<Upload>, operations: seq<nat>, parts: seq<Bytes>, n: nat)
    requires n <= |parts| == 3 && |uploads| == |operations| == 4
  {
    forall i | 0 <= i < n :: Goes(uploads[i], operations[i], parts[i])
  }

  lemma AllGoStep(uploads: seq<Upload>, operations: seq<nat>, parts: seq<Bytes>, n: nat)
    requires n < |parts| == 3 && |uploads| == |operations| == 4 && AllGo(uploads, operations, parts, n)
    ensures AllGo(uploads, operations, parts, n + 1) <==> Goes(uploads[n], operations[n], parts[n])
    ensures !Goes(uploads[n], operations[n], parts[n]) ==> !AllGo(uploads, operations, parts, 3)
  {
  }

  /** The record of three files. */
  function RecordFor(id: string, parts: seq<Bytes>, sha: Bytes -> string): ChecksumRecord
    requires |parts| == 3
  {
    ChecksumRecord(id, map[Postgres := Receipt(Key(id, Postgres), sha(parts[0]), |parts[0]|),
                           Vault := Receipt(Key(id, Vault), sha(parts[1]), |parts[1]|),
                           Manifest := Receipt(Key(id, Manifest), sha(parts[2]), |parts[2]|)])
  }

  // ---- which records were ever encrypted ----

  /** The file is a checksum record that a fetch of the backup would go by. */
  predicate Records(decode: Decode, id: string, file: Bytes) {
    decode(file).Some? && decode(file).value.backupID == id && Covers(decode(file).value)
  }

  ghost predicate NoneRecords(decode: Decode, id: string, files: seq<Bytes>) {
    forall i | 0 <= i < |files| :: !Records(decode, id, files[i])
  }

  /** No checksum record for a backup was ever encrypted under the key. */
  ghost predicate Unrecorded(runs: Runs, decode: Decode, id: string) {
    forall prefix | prefix in runs && runs[prefix].Complete() :: !Records(decode, id, Concat(runs[prefix].chunks))
  }

  /** The only checksum record for a backup ever encrypted under the key is `rec`. */
  ghost predicate OnlyRecord(runs: Runs, decode: Decode, rec: ChecksumRecord) {
    forall prefix | prefix in runs && runs[prefix].Complete() && Records(decode, rec.backupID, Concat(runs[prefix].chunks)) ::
      decode(Concat(runs[prefix].chunks)) == Some(rec)
  }

  lemma UnrecordedStays(runs: Runs, decode: Decode, id: string, prefix: Bytes, file: Bytes, sealed: nat)
    requires Unrecorded(runs, decode, id) && !Records(decode, id, file)
    ensures Unrecorded(runs[prefix := Run(Chunks(file), sealed)], decode, id)
  {
    ChunksOfFile(file);
  }

  /** Encrypting the record itself, or anything that is no record of that backup, leaves it the only one. */
  lemma OnlyRecordStays(runs: Runs, decode: Decode, rec: ChecksumRecord, prefix: Bytes, file: Bytes, sealed: nat)
    requires OnlyRecord(runs, decode, rec) && (Records(decode, rec.backupID, file) ==> decode(file) == Some(rec))
    ensures OnlyRecord(runs[prefix := Run(Chunks(file), sealed)], decode, rec)
  {
    ChunksOfFile(file);
  }

  // ---- what a fetch goes by ----

  /** A stored record that is used is for this backup and has a checksum for each of its files. */
  lemma StoredCovers(log: Log, objects: Objects, sha: Bytes -> string, decode: Decode, id: string)
    requires Stored(log, objects, sha, decode, id).Some?
    ensures var rec := Stored(log, objects, sha, decode, id).value;
            && rec.backupID == id
            && Postgres in rec.files && rec.files[Postgres].sha256 != ""
            && Vault in rec.files && rec.files[Vault].sha256 != ""
            && Manifest in rec.files && rec.files[Manifest].sha256 != ""
  {
    var rec := Stored(log, objects, sha, decode, id).value;
    assert Sum(rec, NAMES[0]) != "" && Sum(rec, NAMES[1]) != "" && Sum(rec, NAMES[2]) != "";
  }

  /** A fetch yields three files if and only if each is fetched with the caller's checksum where the
      caller gave one, and with the stored one where not; a record is needed just for those. */
  lemma FetchExactly(log: Log, objects: Objects, sha: Bytes -> string, decode: Decode, id: string, tags: Tags, out: map<Name, Bytes>)
    ensures FetchYields(log, objects, sha, decode, id, tags, out) <==>
            && out.Keys == {Postgres, Vault, Manifest}
            && forall i | 0 <= i < 3 ::
                 if NAMES[i] in tags && tags[NAMES[i]] != ""
                 then Fetched(log, objects, sha, Key(id, NAMES[i]), tags[NAMES[i]]) == Some(out[NAMES[i]])
                 else && Stored(log, objects, sha, decode, id).Some?
                      && Fetched(log, objects, sha, Key(id, NAMES[i]), Sum(Stored(log, objects, sha, decode, id).value, NAMES[i])) == Some(out[NAMES[i]])
  {
    if Stored(log, objects, sha, decode, id).Some? {
      StoredCovers(log, objects, sha, decode, id);
    }
  }

  /** The caller's checksum wins: whatever is stored, a file is yielded for it only with that checksum. */
  lemma CallersChecksumWins(log: Log, objects: Objects, sha: Bytes -> string, decode: Decode, id: string, tags: Tags, out: map<Name, Bytes>, i: nat)
    requires FetchYields(log, objects, sha, decode, id, tags, out) && i < 3 && Tag(tags, NAMES[i]) != ""
    ensures NAMES[i] in tags && sha(out[NAMES[i]]) == tags[NAMES[i]]
  {
    FetchExactly(log, objects, sha, decode, id, tags, out);
  }

  class BackupManager {
    const offsite: OffsiteStore
    const encode: Encode
    const decode: Decode
    // The files under the directory that backups are fetched into.
    var files: Objects

    constructor (offsite: OffsiteStore, encode: Encode, decode: Decode, files: Objects)
      ensures this.offsite == offsite && this.encode == encode && this.decode == decode && this.files == files
    {
      this.offsite, this.encode, this.decode, this.files := offsite, encode, decode, files;
    }

    /** Uploads the three files and then their checksums; `draws` are the nonce prefixes,
        `operations` and `uploads` say how far each upload gets. After it a fetch brings the files
        back, and whatever the bucket is made to hold a fetch brings back nothing else. */
    method CopyOffsite(id: string, parts: seq<Bytes>, draws: seq<Bytes>, operations: seq<nat>, uploads: seq<Upload>)
      returns (ok: bool, tags: Tags)
      requires offsite.Valid() && |parts| == 3 && |draws| == |operations| == |uploads| == 4
      requires forall i | 0 <= i < 4 :: |draws[i]| == PREFIX_LEN && draws[i] !in offsite.runs
      requires forall i, j | 0 <= i < j < 4 :: draws[i] != draws[j]
      modifies offsite
      ensures offsite.Valid()
      ensures ok <==>
              && uploads[0].Taken? && uploads[1].Taken? && uploads[2].Taken? && uploads[3].Taken?
              && (forall i | 0 <= i < 3 :: |Chunks(parts[i])| <= 0x1_0000_0000 && operations[i] >= 2 + 3 * |Chunks(parts[i])|)
              && var record := encode(RecordFor(id, parts, offsite.sha));
                 |Chunks(record)| <= 0x1_0000_0000 && operations[3] >= 2 + 3 * |Chunks(record)|
      ensures ok && Codec(encode, decode) && Digest(offsite.sha) ==>
                && FetchYields(offsite.log, offsite.objects, offsite.sha, decode, id, map[], PartsMap(parts))
                && FetchYields(offsite.log, offsite.objects, offsite.sha, decode, id, tags, PartsMap(parts))
      ensures ok && Codec(encode, decode) && CollisionFree(offsite.sha) && old(Unrecorded(offsite.runs, decode, id)) ==>
                NoneRecords(decode, id, parts) ==>
                forall objects, out | FetchYields(offsite.log, objects, offsite.sha, decode, id, map[], out) :: out == PartsMap(parts)
    {
      var files: map<Name, Receipt>;
      ok, files, tags := PutParts(id, parts, draws, operations, uploads);
      if !ok {
        return;
      }
      assert ChecksumRecord(id, files) == RecordFor(id, parts, offsite.sha);
      ok := PutChecksums(ChecksumRecord(id, files), parts, draws[3], operations[3], uploads[3]);
      if ok && Codec(encode, decode) && Digest(offsite.sha) {
        CopyFetches(this, id, parts, ChecksumRecord(id, files), tags);
      }
      if && ok && Codec(encode, decode) && CollisionFree(offsite.sha) && old(Unrecorded(offsite.runs, decode, id))
         && NoneRecords(decode, id, parts)
      {
        forall objects, out | FetchYields(offsite.log, objects, offsite.sha, decode, id, map[], out)
          ensures out == PartsMap(parts)
        {
          FetchYieldsOnlyTheBackup(offsite.seal, offsite.log, offsite.runs, objects, offsite.sha, decode,
                                   ChecksumRecord(id, files), parts, out);
        }
      }
    }

    /** The first `n` files are held off-site. */
    ghost predicate HoldsFirst(id: string, parts: seq<Bytes>, n: nat)
      requires n <= |parts| == 3
      reads offsite
    {
      forall k | 0 <= k < n :: offsite.Holds(Key(id, NAMES[k]), parts[k])
    }

    method PutPart(id: string, parts: seq<Bytes>, i: nat, draw: Bytes, operations: nat, upload: Upload) returns (receipt: Option<Receipt>)
      requires offsite.Valid() && i < |parts| == 3 && |draw| == PREFIX_LEN && draw !in offsite.runs && HoldsFirst(id, parts, i)
      modifies offsite
      ensures offsite.Valid() && offsite.runs.Keys == old(offsite.runs).Keys + {draw}
      ensures receipt.Some? <==> Goes(upload, operations, parts[i])
      ensures receipt.Some? ==> receipt.value == Receipt(Key(id, NAMES[i]), offsite.sha(parts[i]), |parts[i]|) && HoldsFirst(id, parts, i + 1)
      ensures old(Unrecorded(offsite.runs, decode, id)) && !Records(decode, id, parts[i]) ==> Unrecorded(offsite.runs, decode, id)
    {
      ghost var before := offsite.runs;
      receipt := offsite.Put(id, NAMES[i], parts[i], draw, operations, upload);
      if Unrecorded(before, decode, id) && !Records(decode, id, parts[i]) {
        UnrecordedStays(before, decode, id, draw, parts[i], offsite.runs[draw].sealed);
      }
    }

    method PutParts(id: string, parts: seq<Bytes>, draws: seq<Bytes>, operations: seq<nat>, uploads: seq<Upload>)
      returns (ok: bool, files: map<Name, Receipt>, tags: Tags)
      requires offsite.Valid() && |parts| == 3 && |draws| == |operations| == |uploads| == 4
      requires forall i | 0 <= i < 4 :: |draws[i]| == PREFIX_LEN && draws[i] !in offsite.runs
      requires forall i, j | 0 <= i < j < 4 :: draws[i] != draws[j]
      modifies offsite
      ensures offsite.Valid()
      ensures ok <==> AllGo(uploads, operations, parts, 3)
      ensures ok ==> draws[3] !in offsite.runs && Receipted(offsite.sha, files, tags, parts, 3) && files == RecordFor(id, parts, offsite.sha).files
      ensures ok ==> HoldsFirst(id, parts, 3)
      ensures old(Unrecorded(offsite.runs, decode, id)) && NoneRecords(decode, id, parts) ==>
                Unrecorded(offsite.runs, decode, id)
    {
      ghost var plain := Unrecorded(offsite.runs, decode, id) && NoneRecords(decode, id, parts);
      files, tags, ok := map[], map[], true;
      for i := 0 to 3
        invariant offsite.Valid() && ok
        invariant forall k | i <= k < 4 :: draws[k] !in offsite.runs
        invariant HoldsFirst(id, parts, i)
        invariant Sent(id, files, tags, parts, offsite.sha, i) && AllGo(uploads, operations, parts, i)
        invariant plain ==> Unrecorded(offsite.runs, decode, id)
      {
        var receipt := PutPart(id, parts, i, draws[i], operations[i], uploads[i]);
        AllGoStep(uploads, operations, parts, i);
        if receipt.None? {
          ok := false;
          return;
        }
        SentStep(id, files, tags, parts, offsite.sha, i);
        tags := tags[NAMES[i] := receipt.value.sha256];
        files := files[NAMES[i] := receipt.value];
      }
      FilesDone(id, files, parts, offsite.sha);
      assert Receipted(offsite.sha, files, tags, parts, 3);
    }

    /** Stores the receipts beside the files they are for. */
    method PutChecksums(rec: ChecksumRecord, ghost parts: seq<Bytes>, draw: Bytes, operations: nat, upload: Upload)
      returns (ok: bool)
      requires offsite.Valid() && |parts| == 3 && |draw| == PREFIX_LEN && draw !in offsite.runs
      requires HoldsFirst(rec.backupID, parts, 3)
      modifies offsite
      ensures offsite.Valid()
      ensures ok <==> Goes(upload, operations, encode(rec))
      ensures ok ==> offsite.Holds(Key(rec.backupID, Checksums), encode(rec))
      ensures ok ==> HoldsFirst(rec.backupID, parts, 3)
      ensures Codec(encode, decode) && old(Unrecorded(offsite.runs, decode, rec.backupID)) ==> OnlyRecord(offsite.runs, decode, rec)
    {
      ghost var before := offsite.runs;
      var receipt := offsite.Put(rec.backupID, Checksums, encode(rec), draw, operations, upload);
      ok := receipt.Some?;
      if Codec(encode, decode) && Unrecorded(before, decode, rec.backupID) {
        OnlyRecordStays(before, decode, rec, draw, encode(rec), offsite.runs[draw].sealed);
      }
    }

    /** Reads the record back; it must be for this backup and cover every file. */
    method GetChecksums(id: string) returns (rec: Option<ChecksumRecord>)
      requires offsite.Valid()
      ensures rec == Stored(offsite.log, offsite.objects, offsite.sha, decode, id)
    {
      var raw := offsite.Get(id, Checksums, "");
      if raw.None? {
        return None;
      }
      rec := decode(raw.value);
      if rec.None? || rec.value.backupID != id {
        return None;
      }
      for i := 0 to |NAMES|
        invariant forall k | 0 <= k < i :: Sum(rec.value, NAMES[k]) != ""
      {
        if Sum(rec.value, NAMES[i]) == "" {
          return None;
        }
      }
    }

    /** Brings a backup's files back, each decrypted and checked against a checksum. One that fails
        after others were put in place leaves those. */
    method FetchOffsite(id: string, tags: Tags) returns (r: Option<map<Name, Bytes>>)
      requires offsite.Valid()
      modifies this`files
      ensures var stored := if NeedsRecord(tags) then Stored(offsite.log, offsite.objects, offsite.sha, decode, id) else None;
              OnlyChecked(offsite.log, offsite.objects, offsite.sha, id, tags, stored, old(files), files)
      ensures r.Some? ==> InPlace(files, id, r.value)
      ensures r.Some? ==> FetchYields(offsite.log, offsite.objects, offsite.sha, decode, id, tags, r.value)
      ensures r.None? ==> forall out :: !FetchYields(offsite.log, offsite.objects, offsite.sha, decode, id, tags, out)
    {
      var needed := NeedsStored(tags);
      var stored: Option<ChecksumRecord> := None;
      if needed {
        stored := GetChecksums(id);
        if stored.None? {
          return None;
        }
      }
      r := FetchFiles(id, tags, stored);
    }

    method FetchFile(id: string, tags: Tags, stored: Option<ChecksumRecord>, name: Name) returns (file: Option<Bytes>)
      requires offsite.Valid()
      modifies this`files
      ensures file == Checked(offsite.log, offsite.objects, offsite.sha, id, tags, stored, name)
      ensures files == if file.Some? then old(files)[Key(id, name) := file.value] else old(files)
    {
      var want := Want(tags, stored, name);
      if want == "" {
        return None;
      }
      file := offsite.Get(id, name, want);
      if file.Some? {
        files := files[Key(id, name) := file.value];
      }
    }

    method FetchFiles(id: string, tags: Tags, stored: Option<ChecksumRecord>) returns (r: Option<map<Name, Bytes>>)
      requires offsite.Valid()
      modifies this`files
      ensures OnlyChecked(offsite.log, offsite.objects, offsite.sha, id, tags, stored, old(files), files)
      ensures r.Some? ==> InPlace(files, id, r.value) && r.value.Keys == {Postgres, Vault, Manifest}
      ensures r.Some? ==> forall i | 0 <= i < |NAMES| :: Checked(offsite.log, offsite.objects, offsite.sha, id, tags, stored, NAMES[i]) == Some(r.value[NAMES[i]])
      ensures r.None? ==> exists i | 0 <= i < |NAMES| :: Checked(offsite.log, offsite.objects, offsite.sha, id, tags, stored, NAMES[i]) == None
    {
      var out: map<Name, Bytes> := map[];
      for i := 0 to |NAMES|
        invariant out.Keys == set k | 0 <= k < i :: NAMES[k]
        invariant InPlace(files, id, out)
        invariant OnlyChecked(offsite.log, offsite.objects, offsite.sha, id, tags, stored, old(files), files)
        invariant forall k | 0 <= k < i :: Checked(offsite.log, offsite.objects, offsite.sha, id, tags, stored, NAMES[k]) == Some(out[NAMES[k]])
      {
        ghost var before := files;
        var file := FetchFile(id, tags, stored, NAMES[i]);
        if file.None? {
          return None;
        }
        OneMoreChecked(offsite.log, offsite.objects, offsite.sha, id, tags, stored, old(files), before, NAMES[i], file.value);
        OneMoreInPlace(before, id, out, NAMES[i], file.value);
        out := out[NAMES[i] := file.value];
      }
      assert out.Keys == {NAMES[0], NAMES[1], NAMES[2]};
      return Some(out);
    }
  }

  // ---- the files put in place ----

  /** Every file is as it was, or has been put in place having passed its check. */
  ghost predicate OnlyChecked(log: Log, objects: Objects, sha: Bytes -> string, id: string, tags: Tags,
                              stored: Option<ChecksumRecord>, before: Objects, after: Objects)
  {
    forall k :: k in before || k in after ==>
      || (k in before && k in after && after[k] == before[k])
      || (k in after && k.backupID == id && Checked(log, objects, sha, id, tags, stored, k.name) == Some(after[k]))
  }

  ghost predicate InPlace(files: Objects, id: string, out: map<Name, Bytes>) {
    forall n | n in out :: Key(id, n) in files && files[Key(id, n)] == out[n]
  }

  lemma OneMoreChecked(log: Log, objects: Objects, sha: Bytes -> string, id: string, tags: Tags,
                       stored: Option<ChecksumRecord>, before: Objects, after: Objects, name: Name, file: Bytes)
    requires OnlyChecked(log, objects, sha, id, tags, stored, before, after)
    requires Checked(log, objects, sha, id, tags, stored, name) == Some(file)
    ensures OnlyChecked(log, objects, sha, id, tags, stored, before, after[Key(id, name) := file])
  {
  }

  lemma OneMoreInPlace(files: Objects, id: string, out: map<Name, Bytes>, name: Name, file: Bytes)
    requires InPlace(files, id, out)
    ensures InPlace(files[Key(id, name) := file], id, out[name := file])
  {
  }

  /** Stops at the first file the caller gave no checksum for. */
  method NeedsStored(tags: Tags) returns (needed: bool)
    ensures needed <==> NeedsRecord(tags)
  {
    for i := 0 to |NAMES|
      invariant forall k | 0 <= k < i :: Tag(tags, NAMES[k]) != ""
    {
      if Tag(tags, NAMES[i]) == "" {
        return true;
      }
    }
    return false;
  }

  function PartsMap(parts: seq<Bytes>): (m: map<Name, Bytes>)
    requires |parts| == 3
    ensures m.Keys == {Postgres, Vault, Manifest}
    ensures forall i | 0 <= i < 3 :: m[NAMES[i]] == parts[i]
  {
    map[Postgres := parts[0], Vault := parts[1], Manifest := parts[2]]
  }

  /** The receipts and tags of the first `n` files hold those files' checksums. */
  ghost predicate Receipted(sha: Bytes -> string, files: map<Name, Receipt>, tags: Tags, parts: seq<Bytes>, n: nat)
    requires n <= |parts| == 3
  {
    forall k | 0 <= k < n ::
      NAMES[k] in files && files[NAMES[k]].sha256 == sha(parts[k]) && Tag(tags, NAMES[k]) == sha(parts[k])
  }

  ghost predicate FilesAre(id: string, files: map<Name, Receipt>, parts: seq<Bytes>, sha: Bytes -> string, n: nat)
    requires n <= |parts| == 3
  {
    && files.Keys == (set k | 0 <= k < n :: NAMES[k])
    && forall k | 0 <= k < n :: files[NAMES[k]] == Receipt(Key(id, NAMES[k]), sha(parts[k]), |parts[k]|)
  }

  lemma FilesStep(id: string, files: map<Name, Receipt>, parts: seq<Bytes>, sha: Bytes -> string, n: nat)
    requires n < |parts| == 3 && FilesAre(id, files, parts, sha, n)
    ensures FilesAre(id, files[NAMES[n] := Receipt(Key(id, NAMES[n]), sha(parts[n]), |parts[n]|)], parts, sha, n + 1)
  {
  }

  lemma FilesDone(id: string, files: map<Name, Receipt>, parts: seq<Bytes>, sha: Bytes -> string)
    requires |parts| == 3 && FilesAre(id, files, parts, sha, 3)
    ensures files == RecordFor(id, parts, sha).files
  {
    assert files.Keys == {NAMES[0], NAMES[1], NAMES[2]};
  }

  /** The receipts of the first `n` files, and the tags that go with them. */
  ghost predicate Sent(id: string, files: map<Name, Receipt>, tags: Tags, parts: seq<Bytes>, sha: Bytes -> string, n: nat)
    requires n <= |parts| == 3
  {
    FilesAre(id, files, parts, sha, n) && Receipted(sha, files, tags, parts, n)
  }

  lemma SentStep(id: string, files: map<Name, Receipt>, tags: Tags, parts: seq<Bytes>, sha: Bytes -> string, n: nat)
    requires n < |parts| == 3 && Sent(id, files, tags, parts, sha, n)
    ensures Sent(id, files[NAMES[n] := Receipt(Key(id, NAMES[n]), sha(parts[n]), |parts[n]|)], tags[NAMES[n] := sha(parts[n])], parts, sha, n + 1)
  {
    FilesStep(id, files, parts, sha, n);
  }

  lemma CopyFetches(m: BackupManager, id: string, parts: seq<Bytes>, rec: ChecksumRecord, tags: Tags)
    requires m.offsite.Valid() && Codec(m.encode, m.decode) && Digest(m.offsite.sha)
    requires |parts| == 3 && rec.backupID == id
    requires Receipted(m.offsite.sha, rec.files, tags, parts, 3)
    requires m.offsite.Holds(Key(id, Checksums), m.encode(rec))
    requires m.HoldsFirst(id, parts, 3)
    ensures FetchYields(m.offsite.log, m.offsite.objects, m.offsite.sha, m.decode, id, map[], PartsMap(parts))
    ensures FetchYields(m.offsite.log, m.offsite.objects, m.offsite.sha, m.decode, id, tags, PartsMap(parts))
  {
    var o := m.offsite;
    o.HoldsFetched(Key(id, Checksums), m.encode(rec), "");
    forall k | 0 <= k < 3
      ensures Fetched(o.log, o.objects, o.sha, Key(id, NAMES[k]), o.sha(parts[k])) == Some(parts[k])
    {
      o.HoldsFetched(Key(id, NAMES[k]), parts[k], o.sha(parts[k]));
    }
  }

  /** Whatever is in the bucket, a fetch that succeeds with no checksum from the caller hands
      back the backup's own files: an object replaced by another validly encrypted one, or a
      checksum record of another backup, makes it fail. */
  lemma FetchYieldsOnlyTheBackup(seal: SealFn, log: Log, runs: Runs, objects: Objects, sha: Bytes -> string,
                                 decode: Decode, rec: ChecksumRecord, parts: seq<Bytes>, out: map<Name, Bytes>)
    requires History(seal, log, runs) && OnlyRecord(runs, decode, rec) && CollisionFree(sha)
    requires |parts| == 3 && forall k | 0 <= k < 3 :: Sum(rec, NAMES[k]) == sha(parts[k])
    requires FetchYields(log, objects, sha, decode, rec.backupID, map[], out)
    ensures out == PartsMap(parts)
  {
    var tags: Tags := map[];
    assert Tag(tags, NAMES[0]) == "" && NeedsRecord(tags);
    var raw := objects[Key(rec.backupID, Checksums)];
    AcceptedIsOutput(seal, log, runs, raw);
    assert Stored(log, objects, sha, decode, rec.backupID) == Some(rec);
    forall k | 0 <= k < 3
      ensures out[NAMES[k]] == parts[k]
    {
      assert Checked(log, objects, sha, rec.backupID, tags, Some(rec), NAMES[k]) == Some(out[NAMES[k]]);
    }
  }

  /** With all three checksums from the caller, nothing stored beside the files is trusted. */
  lemma FetchYieldsWhatTheCallerNamed(log: Log, objects: Objects, sha: Bytes -> string, decode: Decode, id: string,
                                      tags: Tags, parts: seq<Bytes>, out: map<Name, Bytes>)
    requires CollisionFree(sha) && Digest(sha)
    requires |parts| == 3 && forall k | 0 <= k < 3 :: Tag(tags, NAMES[k]) == sha(parts[k])
    requires FetchYields(log, objects, sha, decode, id, tags, out)
    ensures out == PartsMap(parts)
  {
    forall k | 0 <= k < 3
      ensures out[NAMES[k]] == parts[k]
    {
      assert Checked(log, objects, sha, id, tags, None, NAMES[k]) == Some(out[NAMES[k]]);
    }
  }
}
