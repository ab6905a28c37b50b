/**
 * The file format of a full backup: signature, header length, header and
 * sealed envelope. JSON and base64 are a codec given from outside, key
 * derivation and encryption are ideal: a key is what it was derived from,
 * and an envelope opens only under the key and associated data it was sealed
 * with.
 */
module BackupFile {
  import opened Prelude
  import opened BackupRestore
  import opened BackupContents

  type Byte = b: int | 0 <= b < 256
  type Text = seq<Byte>

  const MAGIC: Text := [0x41, 0x4E, 0x56, 0x49, 0x4C, 0x42, 0x41, 0x4B]
  const FORMAT_VERSION: nat := 1
  const MAX_HEADER_BYTES: nat := 4096
  const MAX_BACKUP_BYTES: nat := 2 * 1024 * 1024 * 1024
  const MAX_BUNDLE_FILE_BYTES: nat := 256 * 1024 * 1024 + 64 * 1024 * 1024
  const HEADER_PREFIX_BYTES: nat := 8 + 4 + MAX_HEADER_BYTES
  const MIN_PASSPHRASE_LEN: nat := 8
  const SALT_LEN: nat := 16
  const DB_SCHEMA_VERSION: nat := 6

  datatype Kdf = Kdf(memory: nat, iterations: nat, parallelism: nat)

  /** A header's fields; the format and cipher are right or wrong names, the salt may not be base64. */
  datatype Header = Header(format: bool, version: nat, cipher: bool, kdf: Kdf, salt: Option<Text>)

  datatype Manifest = Manifest(format: bool, version: nat, fullBackup: bool, schema: nat, dbSchema: nat, rest: int)

  datatype Payload = Payload(manifest: Manifest, contents: Contents)

  /** How headers and payloads are written as JSON and read back. */
  datatype Codec = Codec(header: Header -> Text, readHeader: Text -> Option<Header>,
                         payload: Payload -> Text, readPayload: Text -> Option<Payload>)

  /** The header an export writes. */
  function ExportHeader(kdf: Kdf, salt: Text): Header {
    Header(true, FORMAT_VERSION, true, kdf, Some(salt))
  }

  /** An export's header fits the limit and reads back. */
  predicate HeaderReadsBack(c: Codec, kdf: Kdf, salt: Text) {
    var text := c.header(ExportHeader(kdf, salt));
    |text| <= MAX_HEADER_BYTES && c.readHeader(text) == Some(ExportHeader(kdf, salt))
  }

  predicate PayloadReadsBack(c: Codec, p: Payload) {
    c.readPayload(c.payload(p)) == Some(p)
  }

  /** Every header an export can write fits the limit and reads back. */
  ghost predicate Faithful(c: Codec) {
    forall kdf, salt :: KdfAccepted(kdf) && |salt| == SALT_LEN ==> HeaderReadsBack(c, kdf, salt)
  }

  /** An ideal key: exactly what it was derived from. */
  datatype CipherKey = CipherKey(passphrase: Text, salt: Text, kdf: Kdf)

  datatype Sealing = Sealing(key: CipherKey, aad: Text, plaintext: Text)

  /** Every envelope ever sealed. */
  type Log = map<Text, Sealing>

  function OpenEnvelope(log: Log, key: CipherKey, aad: Text, envelope: Text): Option<Text> {
    if envelope in log && log[envelope].key == key && log[envelope].aad == aad then Some(log[envelope].plaintext) else None
  }

  predicate KdfAccepted(k: Kdf) {
    && 1 <= k.iterations <= 10 && 1 <= k.parallelism <= 4
    && 8 * k.parallelism <= k.memory <= 256 * 1024
    && k.memory * k.iterations <= 1024 * 1024
  }

  function BigEndian(n: nat): (b: Text)
    requires n < 0x1_0000_0000
    ensures |b| == 4
  {
    [n / 0x100_0000, n / 0x1_0000 % 0x100, n / 0x100 % 0x100, n % 0x100]
  }

  function FromBigEndian(b: Text): nat
    requires |b| == 4
  {
    (((b[0] as int) * 0x100 + b[1]) * 0x100 + b[2]) * 0x100 + b[3]
  }

  lemma BigEndianRoundTrip(n: nat)
    requires n < 0x1_0000_0000
    ensures FromBigEndian(BigEndian(n)) == n
  {
    var a := n / 0x100;
    var b := a / 0x100;
    assert n / 0x1_0000 == b && n / 0x100_0000 == b / 0x100;
    assert n == a * 0x100 + n % 0x100 && a == b * 0x100 + a % 0x100 && b == b / 0x100 * 0x100 + b % 0x100;
  }

  /** The most significant byte comes first. */
  lemma MostSignificantFirst(b: Text)
    requires |b| == 4
    ensures FromBigEndian(b) == 16777216 * (b[0] as int) + 65536 * (b[1] as int) + 256 * (b[2] as int) + b[3]
  {
  }

  predicate IsBackup(bytes: Text) {
    |bytes| >= 8 && bytes[..8] == MAGIC
  }

  /** A header read from the start of a file, its salt, and where it ends. */
  datatype Opened = Opened(header: Header, salt: Text, end: nat)

  function OpenHeader(c: Codec, bytes: Text): Result<Opened, BackupError> {
    if !IsBackup(bytes) || |bytes| < 12 then Err(NotABackup)
    else
      var len := FromBigEndian(bytes[8..12]);
      if len > MAX_HEADER_BYTES || |bytes| < 12 + len then Err(NotABackup)
      else
        match c.readHeader(bytes[12..12 + len])
        case None => Err(NotABackup)
        case Some(h) =>
          if !h.format then Err(NotABackup)
          else if h.version > FORMAT_VERSION then Err(FutureFormat)
          else if h.version != FORMAT_VERSION || !h.cipher then Err(NotABackup)
          else if !KdfAccepted(h.kdf) then Err(UnsupportedKdf)
          else if h.salt.None? then Err(NotABackup)
          else if !(8 <= |h.salt.value| <= 64) then Err(UnsupportedKdf)
          else Ok(Opened(h, h.salt.value, 12 + len))
  }

  /** How many bytes of a file are read at all, decided from its start. */
  function ImportReadLimit(c: Codec, prefix: Text, size: nat, passphrase: Option<Text>): Result<nat, BackupError> {
    if !IsBackup(prefix) then Ok(MAX_BUNDLE_FILE_BYTES)
    else if size > MAX_BACKUP_BYTES then Err(TooLarge)
    else if OpenHeader(c, prefix).Err? then Err(OpenHeader(c, prefix).error)
    else if passphrase.None? then Err(PassphraseRequired)
    else Ok(MAX_BACKUP_BYTES)
  }

  /** Why an authenticated payload's manifest is refused. */
  function ManifestRefusal(m: Manifest, h: Header): Option<BackupError> {
    if !m.format || m.version != h.version || !m.fullBackup then Some(Invalid)
    else if m.schema > SCHEMA_VERSION then Some(FutureSchema)
    else if m.schema < MIN_SCHEMA_VERSION then Some(Invalid)
    else if m.dbSchema > DB_SCHEMA_VERSION then Some(FutureSchema)
    else None
  }

  function Open(c: Codec, log: Log, bytes: Text, passphrase: Option<Text>): Result<Payload, BackupError> {
    if |bytes| > MAX_BACKUP_BYTES then Err(TooLarge)
    else
      var head := OpenHeader(c, bytes);
      if head.Err? then Err(head.error)
      else if passphrase.None? then Err(PassphraseRequired)
      else
        var end := head.value.end;
        var key := CipherKey(passphrase.value, head.value.salt, head.value.header.kdf);
        match OpenEnvelope(log, key, bytes[..end], bytes[end..])
        case None => Err(Authentication)
        case Some(plaintext) =>
          match c.readPayload(plaintext)
          case None => Err(Invalid)
          case Some(p) => if ManifestRefusal(p.manifest, head.value.header).Some? then Err(ManifestRefusal(p.manifest, head.value.header).value) else Ok(p)
  }

  // ------------------------------------------------- what opening decides

  /** The file starts with the signature, the length `len` and a header of that length that reads as `h`. */
  predicate StartsWithHeader(c: Codec, bytes: Text, h: Header, len: nat) {
    && |bytes| >= 12 && bytes[..8] == MAGIC && len <= 4096 && 12 + len <= |bytes|
    && FromBigEndian(bytes[8..12]) == len && c.readHeader(bytes[12..12 + len]) == Some(h) && h.format
  }

  /** Costs a key is derived with: at most 256 MiB, 10 passes and 4 lanes, and 1 GiB of memory passed over in all. */
  predicate CostsAllowed(k: Kdf) {
    && 1 <= k.iterations <= 10 && 1 <= k.parallelism <= 4 && 8 * k.parallelism <= k.memory <= 262144
    && k.memory * k.iterations <= 1048576
  }

  /** A header opens, or is refused as newer or for its costs, exactly when it says so; anything else is no backup. */
  lemma HeaderDecided(c: Codec, bytes: Text, h: Header, len: nat)
    requires StartsWithHeader(c, bytes, h, len)
    ensures var r := OpenHeader(c, bytes);
      && (r == Err(FutureFormat) <==> h.version > 1)
      && (r == Err(UnsupportedKdf) <==>
            h.version == 1 && h.cipher && (!CostsAllowed(h.kdf) || (h.salt.Some? && !(8 <= |h.salt.value| <= 64))))
      && (r.Ok? <==> h.version == 1 && h.cipher && CostsAllowed(h.kdf) && h.salt.Some? && 8 <= |h.salt.value| <= 64)
      && (r.Ok? ==> r.value == Opened(h, h.salt.value, 12 + len))
      && (r.Err? ==> r.error in {NotABackup, FutureFormat, UnsupportedKdf})
  {
    assert IsBackup(bytes);
  }

  lemma NoHeaderIsNoBackup(c: Codec, bytes: Text)
    requires forall h, len: nat :: !StartsWithHeader(c, bytes, h, len)
    ensures OpenHeader(c, bytes) == Err(NotABackup)
  {
    if IsBackup(bytes) && |bytes| >= 12 {
      var len := FromBigEndian(bytes[8..12]);
      if len <= MAX_HEADER_BYTES && 12 + len <= |bytes| && c.readHeader(bytes[12..12 + len]).Some? {
        assert !StartsWithHeader(c, bytes, c.readHeader(bytes[12..12 + len]).value, len);
      }
    }
  }

  /** The manifest is of a full backup in the header's format, and of schema versions this version reads. */
  predicate ManifestFits(m: Manifest, version: nat) {
    && m.format && m.version == version && m.fullBackup
    && MIN_SCHEMA_VERSION <= m.schema <= SCHEMA_VERSION && m.dbSchema <= 6
  }

  /** The manifest is refused only for a newer schema: of its objects or, these being readable, of the database. */
  predicate ManifestNewer(m: Manifest, version: nat) {
    && m.format && m.version == version && m.fullBackup
    && (m.schema > SCHEMA_VERSION || (m.schema >= MIN_SCHEMA_VERSION && m.dbSchema > 6))
  }

  /** `plaintext` is what is sealed in the file's envelope, under this passphrase and the header's salt and costs. */
  predicate Holds(log: Log, bytes: Text, head: Opened, passphrase: Text, plaintext: Text) {
    && head.end <= |bytes| && bytes[head.end..] in log
    && log[bytes[head.end..]] == Sealing(CipherKey(passphrase, head.salt, head.header.kdf), bytes[..head.end], plaintext)
  }

  /** What opening a file with a sound header answers. */
  lemma OpenDecided(c: Codec, log: Log, bytes: Text, passphrase: Text)
    requires |bytes| <= 2147483648 && OpenHeader(c, bytes).Ok?
    ensures Open(c, log, bytes, None) == Err(PassphraseRequired)
    ensures var head, r := OpenHeader(c, bytes).value, Open(c, log, bytes, Some(passphrase));
      && (r == Err(Authentication) <==> forall t :: !Holds(log, bytes, head, passphrase, t))
      && forall t :: Holds(log, bytes, head, passphrase, t) ==>
           && (c.readPayload(t).None? ==> r == Err(Invalid))
           && (c.readPayload(t).Some? ==>
                 var p := c.readPayload(t).value;
                 && (r == Ok(p) <==> ManifestFits(p.manifest, head.header.version))
                 && (r == Err(FutureSchema) <==> ManifestNewer(p.manifest, head.header.version)))
  {
    var head := OpenHeader(c, bytes).value;
    assert head.end <= |bytes|;
    var envelope := bytes[head.end..];
    if envelope in log {
      assert Holds(log, bytes, head, passphrase, log[envelope].plaintext) <==>
        log[envelope].key == CipherKey(passphrase, head.salt, head.header.kdf) && log[envelope].aad == bytes[..head.end];
    }
  }

  /** A file over 2 GiB is never opened, and one whose header is refused is refused as its header is. */
  lemma OpenRefusedEarly(c: Codec, log: Log, bytes: Text, passphrase: Option<Text>)
    ensures |bytes| > 2147483648 ==> Open(c, log, bytes, passphrase) == Err(TooLarge)
    ensures |bytes| <= 2147483648 && OpenHeader(c, bytes).Err? ==> Open(c, log, bytes, passphrase) == Err(OpenHeader(c, bytes).error)
  {
  }

  /** Everything before the envelope: its associated data. */
  function Frame(header: Text): Text
    requires |header| < 0x1_0000_0000
  {
    MAGIC + BigEndian(|header|) + header
  }

  /** The encryption service: every envelope it made, and what it sealed in each. */
  class Vault {
    var log: Log

    constructor ()
      ensures log == map[]
    {
      log := map[];
    }

    /** Seal `plaintext`, under randomness that makes `fresh` a new envelope. */
    method Encrypt(key: CipherKey, aad: Text, plaintext: Text, envelope: Text)
      requires envelope !in log
      modifies this
      ensures log == old(log)[envelope := Sealing(key, aad, plaintext)]
    {
      log := log[envelope := Sealing(key, aad, plaintext)];
    }
  }

  /** Write one full-backup file. `salt` and `envelope` are the randomness of this export. */
  method Seal(v: Vault, c: Codec, p: Payload, passphrase: Text, kdf: Kdf, salt: Text, envelope: Text)
    returns (r: Result<Text, BackupError>)
    requires |salt| == SALT_LEN && envelope !in v.log
    modifies v
    ensures r == Err(WeakPassphrase) <==> |passphrase| < MIN_PASSPHRASE_LEN
    ensures r == Err(UnsupportedKdf) <==> |passphrase| >= MIN_PASSPHRASE_LEN && !KdfAccepted(kdf)
    ensures var header, sound := c.header(ExportHeader(kdf, salt)), |passphrase| >= MIN_PASSPHRASE_LEN && KdfAccepted(kdf);
      && (r == Err(Invalid) <==> sound && |c.payload(p)| <= MAX_BACKUP_BYTES && |header| >= 0x1_0000_0000)
      && (r == Err(TooLarge) <==>
            sound && (|c.payload(p)| > MAX_BACKUP_BYTES || (|header| < 0x1_0000_0000 && 12 + |header| + |envelope| > MAX_BACKUP_BYTES)))
      && (r.Ok? <==> sound && |c.payload(p)| <= MAX_BACKUP_BYTES && 12 + |header| + |envelope| <= MAX_BACKUP_BYTES)
      && (r.Ok? ==> r.value == Frame(header) + envelope)
      && (r.Ok? ==> v.log == old(v.log)[envelope := Sealing(CipherKey(passphrase, salt, kdf), Frame(header), c.payload(p))])
    ensures forall e :: e in old(v.log) ==> e in v.log && v.log[e] == old(v.log)[e]
  {
    if |passphrase| < MIN_PASSPHRASE_LEN {
      return Err(WeakPassphrase);
    }
    if !KdfAccepted(kdf) {
      return Err(UnsupportedKdf);
    }
    var payload := c.payload(p);
    if |payload| > MAX_BACKUP_BYTES {
      return Err(TooLarge);
    }
    var header := c.header(ExportHeader(kdf, salt));
    if |header| >= 0x1_0000_0000 {
      return Err(Invalid);
    }
    var out := MAGIC;
    out := out + BigEndian(|header|);
    out := out + header;
    v.Encrypt(CipherKey(passphrase, salt, kdf), out, payload, envelope);
    out := out + envelope;
    if |out| > MAX_BACKUP_BYTES {
      return Err(TooLarge);
    }
    r := Ok(out);
  }

  // ------------------------------------------------------------ round trip

  /** A file framed around an export's header gives that header back, whatever follows. */
  lemma FrameOpens(c: Codec, kdf: Kdf, salt: Text, rest: Text)
    requires |salt| == SALT_LEN && KdfAccepted(kdf) && HeaderReadsBack(c, kdf, salt)
    ensures var framed := Frame(c.header(ExportHeader(kdf, salt)));
      OpenHeader(c, framed + rest) == Ok(Opened(ExportHeader(kdf, salt), salt, |framed|))
  {
    var header := c.header(ExportHeader(kdf, salt));
    var bytes := Frame(header) + rest;
    BigEndianRoundTrip(|header|);
    assert bytes[..8] == MAGIC;
    assert bytes[8..12] == BigEndian(|header|);
    assert bytes[12..12 + |header|] == header;
  }

  /** A manifest as an export of this version writes it. */
  predicate OwnManifest(m: Manifest) {
    m.format && m.version == FORMAT_VERSION && m.fullBackup && m.schema == SCHEMA_VERSION && m.dbSchema == DB_SCHEMA_VERSION
  }

  /** A sealed file opens with its passphrase, however much is sealed later, to exactly what was sealed. */
  lemma SealedOpens(c: Codec, log: Log, p: Payload, passphrase: Text, kdf: Kdf, salt: Text, envelope: Text)
    requires HeaderReadsBack(c, kdf, salt) && PayloadReadsBack(c, p)
    requires |salt| == SALT_LEN && KdfAccepted(kdf) && OwnManifest(p.manifest)
    requires Lookup(log, envelope) == Some(Sealing(CipherKey(passphrase, salt, kdf), Frame(c.header(ExportHeader(kdf, salt))), c.payload(p)))
    requires |Frame(c.header(ExportHeader(kdf, salt))) + envelope| <= MAX_BACKUP_BYTES
    ensures Open(c, log, Frame(c.header(ExportHeader(kdf, salt))) + envelope, Some(passphrase)) == Ok(p)
    ensures forall other :: other != passphrase ==>
      Open(c, log, Frame(c.header(ExportHeader(kdf, salt))) + envelope, Some(other)) == Err(Authentication)
  {
    var aad := Frame(c.header(ExportHeader(kdf, salt)));
    FrameOpens(c, kdf, salt, envelope);
    assert (aad + envelope)[..|aad|] == aad && (aad + envelope)[|aad|..] == envelope;
  }

  // A codec that meets these hypotheses: fixed-width headers, and one payload.

  function PlainHeader(h: Header): Text {
    var kdf := h.kdf;
    if !KdfAccepted(kdf) || h.salt.None? then []
    else [kdf.memory / 0x1_0000, kdf.memory / 0x100 % 0x100, kdf.memory % 0x100, kdf.iterations, kdf.parallelism] + h.salt.value
  }

  function ReadPlainHeader(t: Text): Option<Header> {
    if |t| < 5 then None
    else Some(ExportHeader(Kdf(((t[0] as int) * 0x100 + t[1]) * 0x100 + t[2], t[3], t[4]), t[5..]))
  }

  function PlainCodec(p: Payload): Codec {
    Codec(PlainHeader, ReadPlainHeader, q => [], t => Some(p))
  }

  /** For every payload some codec writes and reads back an export of it. */
  lemma FaithfulCodec(p: Payload)
    ensures Faithful(PlainCodec(p)) && PayloadReadsBack(PlainCodec(p), p)
  {
    var c := PlainCodec(p);
    forall kdf, salt | KdfAccepted(kdf) && |salt| == SALT_LEN ensures HeaderReadsBack(c, kdf, salt) {
      PlainHeaderReadsBack(kdf, salt);
    }
  }

  lemma PlainHeaderReadsBack(kdf: Kdf, salt: Text)
    requires KdfAccepted(kdf)
    ensures |PlainHeader(ExportHeader(kdf, salt))| == 5 + |salt|
    ensures ReadPlainHeader(PlainHeader(ExportHeader(kdf, salt))) == Some(ExportHeader(kdf, salt))
  {
    var text, m := PlainHeader(ExportHeader(kdf, salt)), kdf.memory;
    assert text[5..] == salt;
    assert m / 0x100 / 0x100 == m / 0x1_0000;
    assert m == m / 0x100 * 0x100 + m % 0x100 && m / 0x100 == m / 0x100 / 0x100 * 0x100 + m / 0x100 % 0x100;
  }

  // ------------------------------------------------------- nothing else opens

  /** The sealing a file is, byte for byte. */
  ghost predicate IsSealed(log: Log, bytes: Text, envelope: Text) {
    envelope in log && bytes == log[envelope].aad + envelope
  }

  /** `passphrase` is the one sealed with, and `p` is what was sealed. */
  predicate Unlocks(c: Codec, s: Sealing, passphrase: Option<Text>, p: Payload) {
    passphrase == Some(s.key.passphrase) && c.readPayload(s.plaintext) == Some(p)
  }

  /** No file opens that is not, byte for byte, a sealed one, with the passphrase it was sealed with. */
  lemma OnlySealedOpens(c: Codec, log: Log, bytes: Text, passphrase: Option<Text>)
    requires Open(c, log, bytes, passphrase).Ok?
    ensures exists envelope :: IsSealed(log, bytes, envelope) && Unlocks(c, log[envelope], passphrase, Open(c, log, bytes, passphrase).value)
  {
    var end := OpenHeader(c, bytes).value.end;
    var envelope := bytes[end..];
    assert bytes == bytes[..end] + envelope;
    assert IsSealed(log, bytes, envelope);
  }

  /** The length field fixes where the associated data ends: no file is two sealings at once. */
  lemma FrameSplitsOnce(h1: Text, rest1: Text, h2: Text, rest2: Text)
    requires |h1| < 0x1_0000_0000 && |h2| < 0x1_0000_0000
    requires Frame(h1) + rest1 == Frame(h2) + rest2
    ensures h1 == h2 && rest1 == rest2
  {
    var bytes := Frame(h1) + rest1;
    assert bytes[8..12] == BigEndian(|h1|);
    assert (Frame(h2) + rest2)[8..12] == BigEndian(|h2|);
    BigEndianRoundTrip(|h1|);
    BigEndianRoundTrip(|h2|);
    assert bytes[12..12 + |h1|] == h1 && (Frame(h2) + rest2)[12..12 + |h2|] == h2;
    assert bytes[12 + |h1|..] == rest1 && (Frame(h2) + rest2)[12 + |h2|..] == rest2;
  }

  // ------------------------------------------------------ the import's limit

  function PrefixOf(bytes: Text): Text {
    if |bytes| <= HEADER_PREFIX_BYTES then bytes else bytes[..HEADER_PREFIX_BYTES]
  }

  /** The first bytes of a file say all its header says. */
  lemma PrefixIsEnough(c: Codec, bytes: Text)
    ensures PrefixOf(bytes) <= bytes && |PrefixOf(bytes)| <= 4108
    ensures IsBackup(PrefixOf(bytes)) <==> IsBackup(bytes)
    ensures OpenHeader(c, PrefixOf(bytes)) == OpenHeader(c, bytes)
  {
    var prefix := PrefixOf(bytes);
    if |bytes| > HEADER_PREFIX_BYTES {
      assert prefix[..8] == bytes[..8] && prefix[8..12] == bytes[8..12];
      var len := FromBigEndian(bytes[8..12]);
      if len <= MAX_HEADER_BYTES {
        assert prefix[12..12 + len] == bytes[12..12 + len];
      }
    }
  }

  /** Failures an import finds before it reads the whole file. */
  predicate FoundEarly(e: BackupError) {
    e in {NotABackup, FutureFormat, UnsupportedKdf, TooLarge, PassphraseRequired}
  }

  /** From its first bytes a backup is refused exactly as opening it whole would refuse it, or may be read whole. */
  lemma LimitAgreesWithOpen(c: Codec, log: Log, bytes: Text, passphrase: Option<Text>)
    requires |bytes| >= 8 && bytes[..8] == MAGIC
    ensures var limit := ImportReadLimit(c, PrefixOf(bytes), |bytes|, passphrase);
      && (limit.Err? ==> Open(c, log, bytes, passphrase) == Err(limit.error) && FoundEarly(limit.error))
      && (limit.Ok? ==> |bytes| <= limit.value == 2147483648 && (Open(c, log, bytes, passphrase).Err? ==> !FoundEarly(Open(c, log, bytes, passphrase).error)))
  {
    PrefixIsEnough(c, bytes);
  }

  /** Any other file is read up to the limit of import bundles. */
  lemma OtherFilesLimit(c: Codec, bytes: Text, passphrase: Option<Text>)
    requires |bytes| < 8 || bytes[..8] != MAGIC
    ensures ImportReadLimit(c, PrefixOf(bytes), |bytes|, passphrase) == Ok(335544320)
  {
    PrefixIsEnough(c, bytes);
  }
}
