/**
 * Exporting a full backup, from the store to the file, and what opening and
 * restoring that file gives.
 */
module BackupExport {
  import opened Prelude
  import opened Store
  import opened BackupWrite
  import opened BackupRestore
  import opened BackupContents
  import opened BackupDecode
  import opened BackupSnapshot
  import opened Rulesets
  import opened RoundTrip
  import opened SnapshotDecodes
  import File = BackupFile

  datatype ExportFailure = Unreadable(cause: ExportError) | Refused(error: BackupError)

  function OwnManifest(rest: int): File.Manifest {
    File.Manifest(true, File.FORMAT_VERSION, true, SCHEMA_VERSION, File.DB_SCHEMA_VERSION, rest)
  }

  function OwnPayload(contents: Contents, rest: int): File.Payload {
    File.Payload(OwnManifest(rest), contents)
  }

  /** The file holds a snapshot of `db` that this version restores, and opens only with `passphrase`. */
  ghost predicate Exports(db: Db, c: File.Codec, log: File.Log, file: File.Text, passphrase: File.Text, contents: Contents, rest: int) {
    && SnapshotOf(db, contents) && Exportable(db) && Refusal(contents).None?
    && File.Open(c, log, file, Some(passphrase)) == Ok(OwnPayload(contents, rest))
    && (forall other :: other != passphrase ==> File.Open(c, log, file, Some(other)) == Err(Authentication))
  }

  /** Passphrase and costs an export accepts. */
  predicate KeyAccepted(passphrase: File.Text, kdf: File.Kdf) {
    |passphrase| >= File.MIN_PASSPHRASE_LEN && File.KdfAccepted(kdf)
  }

  /** The file of an export, and its payload, fit the limit. */
  predicate FileFits(c: File.Codec, kdf: File.Kdf, salt: File.Text, envelope: File.Text, payload: File.Payload) {
    && |c.payload(payload)| <= File.MAX_BACKUP_BYTES
    && 12 + |c.header(File.ExportHeader(kdf, salt))| + |envelope| <= File.MAX_BACKUP_BYTES
  }

  /** `salt` and `envelope` are the randomness of this export; `rest` is what the manifest says for the user. */
  method ExportBackup(t: Tables, v: File.Vault, c: File.Codec, passphrase: File.Text, kdf: File.Kdf, salt: File.Text,
                      envelope: File.Text, rest: int) returns (r: Result<File.Text, ExportFailure>, ghost contents: Contents)
    requires File.Faithful(c) && |salt| == File.SALT_LEN && envelope !in v.log
    modifies v
    ensures t.View() == old(t.View())
    ensures |passphrase| < File.MIN_PASSPHRASE_LEN ==> r == Err(Refused(WeakPassphrase))
    ensures |passphrase| >= File.MIN_PASSPHRASE_LEN && !File.KdfAccepted(kdf) ==> r == Err(Refused(UnsupportedKdf))
    ensures KeyAccepted(passphrase, kdf) && !Exportable(t.View()) ==> r.Err? && r.error.Unreadable?
    ensures KeyAccepted(passphrase, kdf) && Exportable(t.View()) ==> SnapshotOf(t.View(), contents)
    ensures KeyAccepted(passphrase, kdf) && Exportable(t.View()) && Refusal(contents).Some? ==> r == Err(Refused(Refusal(contents).value))
    ensures KeyAccepted(passphrase, kdf) && Exportable(t.View()) && Refusal(contents).None? ==>
      if FileFits(c, kdf, salt, envelope, OwnPayload(contents, rest)) then r.Ok? else r == Err(Refused(TooLarge))
    ensures r.Ok? && File.PayloadReadsBack(c, OwnPayload(contents, rest)) ==>
      Exports(t.View(), c, v.log, r.value, passphrase, contents, rest)
  {
    contents := Contents([], [], [], [], []);
    if |passphrase| < File.MIN_PASSPHRASE_LEN {
      return Err(Refused(WeakPassphrase)), contents;
    }
    if !File.KdfAccepted(kdf) {
      return Err(Refused(UnsupportedKdf)), contents;
    }
    var snapshot := Snapshot(t);
    if snapshot.Err? {
      return Err(Unreadable(snapshot.error)), contents;
    }
    contents := snapshot.value;
    var decoded := Decode(snapshot.value);
    if decoded.Err? {
      return Err(Refused(decoded.error)), contents;
    }
    var payload := OwnPayload(snapshot.value, rest);
    var file := File.Seal(v, c, payload, passphrase, kdf, salt, envelope);
    assert File.HeaderReadsBack(c, kdf, salt);
    if file.Err? {
      return Err(Refused(file.error)), contents;
    }
    if File.PayloadReadsBack(c, payload) {
      File.SealedOpens(c, v.log, payload, passphrase, kdf, salt, envelope);
    }
    r := Ok(file.value);
  }

  /** Decrypt and decode a file for a restore. */
  method OpenForRestore(v: File.Vault, c: File.Codec, bytes: File.Text, passphrase: Option<File.Text>, policy: Policy)
    returns (r: Result<Decoded, BackupError>)
    ensures policy == Duplicate ==> r == Err(DuplicateUnsupported)
    ensures policy != Duplicate ==>
      var file := File.Open(c, v.log, bytes, passphrase);
      && (file.Err? ==> r == Err(file.error))
      && (file.Ok? && Refusal(file.value.contents).Some? ==> r == Err(Refusal(file.value.contents).value))
      && (file.Ok? && Refusal(file.value.contents).None? ==>
            DistinctIds(CarriedOrder(file.value.contents.objects)) && r == Ok(Interpret(file.value.contents)))
  {
    if policy == Duplicate {
      return Err(DuplicateUnsupported);
    }
    var file := File.Open(c, v.log, bytes, passphrase);
    if file.Err? {
      return Err(file.error);
    }
    r := Decode(file.value.contents);
  }

  /** An exported file, opened with its passphrase and restored into an empty profile, gives the exported profile back. */
  lemma ExportedFileGivesBack(db: Db, c: File.Codec, log: File.Log, file: File.Text, passphrase: File.Text, contents: Contents, rest: int,
                              approval: Approval, now: int)
    requires Exports(db, c, log, file, passphrase, contents, rest) && Valid(db) && Tidy(db)
    ensures var read := File.Open(c, log, file, Some(passphrase));
      && read.Ok? && Refusal(read.value.contents).None? && DistinctIds(CarriedOrder(read.value.contents.objects))
      && GivesBack(db, Interpret(read.value.contents), approval, now)
  {
    DecodedSnapshotRestores(db, contents, approval, now);
  }

  // The profile with one folder, exported under a codec that reads back.

  function SampleCodec(rest: int): File.Codec {
    File.PlainCodec(OwnPayload(FOLDER_CONTENTS, rest))
  }

  function SampleFrame(kdf: File.Kdf, salt: File.Text, rest: int): File.Text
    requires |salt| == File.SALT_LEN
  {
    var header := SampleCodec(rest).header(File.ExportHeader(kdf, salt));
    if |header| < 0x1_0000_0000 then File.Frame(header) else []
  }

  /** Its file meets `Exports`, so exporting, opening and restoring it gives the profile back. */
  lemma OneFolderFile(passphrase: File.Text, kdf: File.Kdf, salt: File.Text, envelope: File.Text, rest: int)
    requires KeyAccepted(passphrase, kdf) && |salt| == File.SALT_LEN && |envelope| <= 1024
    ensures var c, frame := SampleCodec(rest), SampleFrame(kdf, salt, rest);
      var log := map[envelope := File.Sealing(File.CipherKey(passphrase, salt, kdf), frame, [])];
      Exports(ONE_FOLDER, c, log, frame + envelope, passphrase, FOLDER_CONTENTS, rest)
  {
    var c, p := SampleCodec(rest), OwnPayload(FOLDER_CONTENTS, rest);
    File.FaithfulCodec(p);
    assert File.HeaderReadsBack(c, kdf, salt);
    OneFolderExports(ONE_FOLDER, FOLDER_CONTENTS);
    DecodesExactly(ONE_FOLDER, FOLDER_CONTENTS);
    var frame := SampleFrame(kdf, salt, rest);
    var log := map[envelope := File.Sealing(File.CipherKey(passphrase, salt, kdf), frame, [])];
    File.SealedOpens(c, log, p, passphrase, kdf, salt, envelope);
  }
}
