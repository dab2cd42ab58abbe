/**
 * The bytes of an attachment: how a manifest cuts a file into chunks, how the
 * chunks are staged and assembled, and how ranges of the object are served.
 */
module AttachmentBytes {
  import opened Wrappers
  import opened ByteStreams
  import opened Utf8

  /** SHA-256 is taken to be injective: a digest is that of one content, or of none anybody has. */
  datatype Digest = Sha(content: Bytes) | Unmatched(id: nat)

  const CHUNK_BYTES: nat := 2 * 1024 * 1024
  const MAX_BYTES: nat := 20 * 1024 * 1024
  const MAX_CHUNKS: nat := 10

  datatype Part = Part(size: int, sha: Digest)

  /** The allowed content types; the two old office formats are checked alike. */
  datatype ContentType = Jpeg | Png | Heic | Pdf | Plain | Csv | OldOffice | Zip | OctetStream

  datatype Manifest = Manifest(size: int, sha: Digest, parts: seq<Part>, contentType: ContentType)

  function Smaller(a: int, b: int): int { if a <= b then a else b }

  // ---- Content types -------------------------------------------------------

  predicate IsText(t: ContentType) { t.Plain? || t.Csv? }

  /** First bytes of Windows, Linux and macOS executables. */
  const EXECUTABLES: seq<Bytes> := [
    [0x4D, 0x5A], [0x7F, 0x45, 0x4C, 0x46],
    [0xFE, 0xED, 0xFA, 0xCE], [0xFE, 0xED, 0xFA, 0xCF], [0xCE, 0xFA, 0xED, 0xFE], [0xCF, 0xFA, 0xED, 0xFE],
    [0xCA, 0xFE, 0xBA, 0xBE], [0xBE, 0xBA, 0xFE, 0xCA], [0xCA, 0xFE, 0xBA, 0xBF], [0xBF, 0xBA, 0xFE, 0xCA]]

  /** The letters heic, heix, hevc, hevx, mif1 and msf1. */
  const HEIC_BRANDS: seq<Bytes> := [
    [0x68, 0x65, 0x69, 0x63], [0x68, 0x65, 0x69, 0x78], [0x68, 0x65, 0x76, 0x63], [0x68, 0x65, 0x76, 0x78],
    [0x6D, 0x69, 0x66, 0x31], [0x6D, 0x73, 0x66, 0x31]]

  predicate LooksExecutable(bytes: Bytes) { exists magic | magic in EXECUTABLES :: magic <= bytes }

  predicate LooksLike(bytes: Bytes, t: ContentType) {
    match t
    case Jpeg => [0xFF, 0xD8, 0xFF] <= bytes
    case Png => [0x89, 0x50, 0x4E, 0x47, 0x0D, 0x0A, 0x1A, 0x0A] <= bytes
    case Heic => 12 <= |bytes| && bytes[4..8] == [0x66, 0x74, 0x79, 0x70] && bytes[8..12] in HEIC_BRANDS
    case Pdf => [0x25, 0x50, 0x44, 0x46, 0x2D] <= bytes
    case Zip =>
      || [0x50, 0x4B, 0x03, 0x04] <= bytes
      || [0x50, 0x4B, 0x05, 0x06] <= bytes
      || [0x50, 0x4B, 0x07, 0x08] <= bytes
    case OldOffice => [0xD0, 0xCF, 0x11, 0xE0, 0xA1, 0xB1, 0x1A, 0xE1] <= bytes
    case Plain | Csv | OctetStream => true
  }

  /** A file starts like its declared type, and not like a program. */
  predicate GoodStart(bytes: Bytes, t: ContentType) { !LooksExecutable(bytes) && LooksLike(bytes, t) }

  lemma MagicIsShort(magic: Bytes)
    requires magic in EXECUTABLES
    ensures |magic| <= 4
  {}

  lemma MagicInStart(magic: Bytes, bytes: Bytes, n: nat)
    requires |magic| <= n <= |bytes|
    ensures magic <= bytes[..n] <==> magic <= bytes
  {}

  lemma LooksDependOnTwelve(bytes: Bytes, t: ContentType, n: nat)
    requires 12 <= n <= |bytes|
    ensures LooksLike(bytes[..n], t) <==> LooksLike(bytes, t)
  {
    if t.Heic? {
      assert bytes[..n][4..8] == bytes[4..8] && bytes[..n][8..12] == bytes[8..12];
    } else {
      forall magic: Bytes | |magic| <= 8 ensures magic <= bytes[..n] <==> magic <= bytes {
        MagicInStart(magic, bytes, n);
      }
    }
  }

  lemma StartDependsOnTwelve(bytes: Bytes, t: ContentType, n: nat)
    requires 12 <= n <= |bytes|
    ensures GoodStart(bytes[..n], t) <==> GoodStart(bytes, t)
  {
    forall magic | magic in EXECUTABLES ensures magic <= bytes[..n] <==> magic <= bytes {
      MagicIsShort(magic);
      MagicInStart(magic, bytes, n);
    }
    LooksDependOnTwelve(bytes, t, n);
  }

  // ---- The manifest --------------------------------------------------------

  function ChunkCount(size: int): int { (size + CHUNK_BYTES - 1) / CHUNK_BYTES }

  /** The size the validator expects of a part. */
  function Expected(size: int, index: nat): int { Smaller(CHUNK_BYTES, size - index * CHUNK_BYTES) }

  predicate ValidManifest(m: Manifest) {
    && 0 < m.size <= MAX_BYTES && 1 <= |m.parts| <= MAX_CHUNKS && |m.parts| == ChunkCount(m.size)
    && forall i | 0 <= i < |m.parts| :: m.parts[i].size == Expected(m.size, i)
  }

  function Total(parts: seq<Part>): int {
    if parts == [] then 0 else Total(parts[..|parts| - 1]) + parts[|parts| - 1].size
  }

  /** Full chunks, then one last chunk that is neither empty nor too long, adding up to the size. */
  predicate Tiles(m: Manifest) {
    && 1 <= |m.parts| && m.size <= MAX_BYTES
    && (forall i | 0 <= i < |m.parts| - 1 :: m.parts[i].size == CHUNK_BYTES)
    && 0 < m.parts[|m.parts| - 1].size <= CHUNK_BYTES
    && Total(m.parts) == m.size
  }

  lemma {:induction false} TotalOfFull(parts: seq<Part>)
    requires forall i | 0 <= i < |parts| :: parts[i].size == CHUNK_BYTES
    ensures Total(parts) == |parts| * CHUNK_BYTES
  {
    if parts != [] { TotalOfFull(parts[..|parts| - 1]); }
  }

  lemma FullUpToTheLast(m: Manifest)
    requires ValidManifest(m)
    ensures forall i | 0 <= i < |m.parts| - 1 :: m.parts[i].size == CHUNK_BYTES
    ensures m.parts[|m.parts| - 1].size == m.size - (|m.parts| - 1) * CHUNK_BYTES
    ensures 0 < m.parts[|m.parts| - 1].size <= CHUNK_BYTES
  {}

  lemma ValidTiles(m: Manifest)
    requires ValidManifest(m)
    ensures Tiles(m)
  {
    var n := |m.parts|;
    FullUpToTheLast(m);
    TotalOfFull(m.parts[..n - 1]);
    assert m.parts[..n - 1] + [m.parts[n - 1]] == m.parts;
  }

  lemma TilesValid(m: Manifest)
    requires Tiles(m)
    ensures ValidManifest(m)
  {
    var n := |m.parts|;
    TotalOfFull(m.parts[..n - 1]);
    assert m.size == (n - 1) * CHUNK_BYTES + m.parts[n - 1].size;
  }

  /** A manifest is accepted exactly when its parts tile the file. */
  lemma ValidIffTiles(m: Manifest)
    ensures ValidManifest(m) <==> Tiles(m)
  {
    if ValidManifest(m) { ValidTiles(m); }
    if Tiles(m) { TilesValid(m); }
  }

  function PartCount(file: Bytes): nat { ChunkCount(|file|) }

  function PartOf(file: Bytes, index: nat): Bytes
    requires index < PartCount(file)
  {
    file[index * CHUNK_BYTES..Smaller((index + 1) * CHUNK_BYTES, |file|)]
  }

  function PartsOf(file: Bytes): seq<Bytes> {
    seq(PartCount(file), i requires 0 <= i < PartCount(file) => PartOf(file, i))
  }

  /** What an honest client sends for a file. */
  function ManifestOf(file: Bytes, t: ContentType): Manifest {
    Manifest(|file|, Sha(file),
             seq(PartCount(file), i requires 0 <= i < PartCount(file) => Part(|PartOf(file, i)|, Sha(PartOf(file, i)))),
             t)
  }

  lemma ManifestOfIsValid(file: Bytes, t: ContentType)
    requires 0 < |file| <= MAX_BYTES
    ensures ValidManifest(ManifestOf(file, t))
  {}

  lemma {:induction false} PrefixRejoins(file: Bytes, n: nat)
    requires n <= PartCount(file)
    ensures Concat(PartsOf(file)[..n]) == file[..Smaller(n * CHUNK_BYTES, |file|)]
  {
    if n > 0 {
      PrefixRejoins(file, n - 1);
      assert PartsOf(file)[..n][..n - 1] == PartsOf(file)[..n - 1];
    }
  }

  /** The parts of a file, in order, are the file. */
  lemma PartsRejoin(file: Bytes)
    ensures Concat(PartsOf(file)) == file
  {
    PrefixRejoins(file, PartCount(file));
    assert PartsOf(file)[..PartCount(file)] == PartsOf(file);
  }

  // ---- Reading a bounded body ----------------------------------------------

  /** Reads a stream to its end, unless it holds more than the limit. */
  method ReadBoundedBytes(pieces: seq<Bytes>, limit: int) returns (bytes: Option<Bytes>)
    ensures bytes == if 0 <= limit && |Concat(pieces)| <= limit then Some(Concat(pieces)) else None
  {
    if limit < 0 { return None; }
    bytes := ReadWithin(pieces, limit, |pieces|);
  }

  // ---- Staging, in any order and with retries -------------------------------

  /** Staged objects are written once per index; a chunk row is added after its object was seen. */
  datatype Staging = Staging(objects: map<nat, Bytes>, rows: map<nat, Part>)

  /**
   * Steps of any number of concurrent calls: the conditional put of a body that
   * passed its checks, and the row insert of a call that saw a matching object.
   */
  datatype Step = Stage(index: nat, body: seq<Bytes>, stopped: bool) | Record(index: nat, stopped: bool)

  predicate Accepts(m: Manifest, index: nat, bytes: Bytes) {
    && index < |m.parts| && |bytes| == m.parts[index].size && Sha(bytes) == m.parts[index].sha
  }

  /** The first part is also looked into before it is staged. */
  predicate MayStage(m: Manifest, index: nat, bytes: Bytes) {
    Accepts(m, index, bytes) && (index == 0 ==> GoodStart(bytes, m.contentType))
  }

  function Take(s: Staging, m: Manifest, step: Step): Staging {
    match step
    case Stage(index, body, stopped) =>
      if stopped || index in s.objects || !MayStage(m, index, Concat(body)) then s
      else s.(objects := s.objects[index := Concat(body)])
    case Record(index, stopped) =>
      if stopped || index in s.rows || index !in s.objects || !Accepts(m, index, s.objects[index]) then s
      else s.(rows := s.rows[index := m.parts[index]])
  }

  function TakeAll(s: Staging, m: Manifest, steps: seq<Step>): Staging
    decreases steps
  {
    if steps == [] then s else TakeAll(Take(s, m, steps[0]), m, steps[1..])
  }

  const UNSTAGED := Staging(map[], map[])

  predicate StagingOk(s: Staging, m: Manifest) {
    && (forall i | i in s.objects :: MayStage(m, i, s.objects[i]))
    && (forall i | i in s.rows :: i in s.objects && i < |m.parts| && s.rows[i] == m.parts[i])
  }

  lemma {:induction false} StagingStaysOk(s: Staging, m: Manifest, steps: seq<Step>)
    requires StagingOk(s, m)
    ensures StagingOk(TakeAll(s, m, steps), m)
    decreases steps
  {
    if steps != [] { StagingStaysOk(Take(s, m, steps[0]), m, steps[1..]); }
  }

  /** The completeness check before finalization. */
  predicate AllRecorded(s: Staging, m: Manifest) {
    && (forall i | 0 <= i < |m.parts| :: i in s.rows && s.rows[i] == m.parts[i])
    && (forall i | i in s.rows :: i < |m.parts|)
  }

  // ---- Assembling -----------------------------------------------------------

  function Pieces(s: Staging, n: nat): seq<Bytes>
    requires forall i | 0 <= i < n :: i in s.objects
  {
    seq(n, i requires 0 <= i < n => s.objects[i])
  }

  predicate Assembles(s: Staging, m: Manifest) {
    && (forall i: nat | i < |m.parts| :: i in s.objects && Accepts(m, i, s.objects[i]))
    && |Concat(Pieces(s, |m.parts|))| == m.size
  }

  /** What the bucket is given to store, if the stream does not fail. */
  function Assembled(s: Staging, m: Manifest): Option<Bytes> {
    if Assembles(s, m) && (IsText(m.contentType) ==> CleanText(Concat(Pieces(s, |m.parts|))))
    then Some(Concat(Pieces(s, |m.parts|))) else None
  }

  lemma PiecesBegin(s: Staging, n: nat, k: nat)
    requires k <= n && forall i | 0 <= i < n :: i in s.objects
    ensures Concat(Pieces(s, k)) <= Concat(Pieces(s, n))
  {
    assert Pieces(s, n)[..k] == Pieces(s, k);
    ConcatIsMonotone(Pieces(s, n), k);
  }

  /**
   * One staged object at a time, each checked again by size and hash. Text is
   * also checked for zero bytes and decoded along the way, so that a character
   * may span two chunks.
   */
  method AssembleBody(s: Staging, m: Manifest) returns (body: Option<Bytes>)
    ensures body == Assembled(s, m)
    ensures body.Some? <==> Assembles(s, m) && (IsText(m.contentType) ==> CleanText(Concat(Pieces(s, |m.parts|))))
  {
    var index, length := 0, 0;
    var out: Bytes := [];
    var decoder := READY;
    while index < |m.parts|
      invariant 0 <= index <= |m.parts|
      invariant forall i: nat | i < index :: i in s.objects && Accepts(m, i, s.objects[i])
      invariant out == Concat(Pieces(s, index)) && length == |out|
      invariant IsText(m.contentType) ==> 0 !in out && decoder == FeedAll(READY, out)
    {
      if index !in s.objects { return None; }
      var bytes := s.objects[index];
      if |bytes| != m.parts[index].size || Sha(bytes) != m.parts[index].sha {
        assert !Accepts(m, index, s.objects[index]);
        return None;
      }
      assert Pieces(s, index + 1)[..index] == Pieces(s, index);
      if IsText(m.contentType) {
        FeedAllSplits(READY, out, bytes);
        decoder := FeedAll(decoder, bytes);
        if 0 in bytes || decoder.Refused? {
          if Assembles(s, m) {
            PiecesBegin(s, |m.parts|, index + 1);
            BadStart(out + bytes, Concat(Pieces(s, |m.parts|)));
          }
          return None;
        }
      }
      out := out + bytes;
      length := length + |bytes|;
      index := index + 1;
    }
    if IsText(m.contentType) && decoder != READY { return None; }
    body := if length == m.size then Some(out) else None;
  }

  /** The bucket stores the assembled body only when it hashes to the manifest's digest. */
  predicate Publishes(body: Bytes, m: Manifest) { Sha(body) == m.sha && |body| == m.size }

  // ---- Serving --------------------------------------------------------------

  /** One range of the object; every other index is refused. */
  function ReadChunk(stored: Bytes, index: int): Option<Bytes> {
    if index < 0 || index >= ChunkCount(|stored|) then None
    else
      var offset := index * CHUNK_BYTES;
      Some(stored[offset..offset + Smaller(CHUNK_BYTES, |stored| - offset)])
  }

  /** A client asks for every index in order and joins the answers. */
  method Download(stored: Bytes) returns (file: Bytes)
    ensures file == stored
  {
    file := [];
    var index := 0;
    while index < ChunkCount(|stored|)
      invariant 0 <= index <= ChunkCount(|stored|)
      invariant file == stored[..Smaller(index * CHUNK_BYTES, |stored|)]
    {
      var chunk := ReadChunk(stored, index);
      file := file + chunk.value;
      index := index + 1;
    }
  }

  // ---- Main results --------------------------------------------------------

  lemma StagedPartsAreTheFile(s: Staging, file: Bytes, t: ContentType)
    requires StagingOk(s, ManifestOf(file, t)) && AllRecorded(s, ManifestOf(file, t))
    ensures (forall i | 0 <= i < PartCount(file) :: i in s.objects) && Pieces(s, PartCount(file)) == PartsOf(file)
  {}

  /**
   * Round trip: after any calls, in any order and with any retries, concurrent
   * bodies and interruptions, a complete upload joins to the file it was
   * declared for, and the bucket accepts it under the declared digest. It gets
   * there exactly unless it is declared text and is not clean text.
   */
  lemma UploadRoundTrip(file: Bytes, t: ContentType, steps: seq<Step>)
    requires 0 < |file| <= MAX_BYTES
    requires AllRecorded(TakeAll(UNSTAGED, ManifestOf(file, t), steps), ManifestOf(file, t))
    ensures
      var m := ManifestOf(file, t);
      var s := TakeAll(UNSTAGED, m, steps);
      && ValidManifest(m) && Assembles(s, m) && Concat(Pieces(s, |m.parts|)) == file && Publishes(file, m)
      && Assembled(s, m) == if IsText(t) && !CleanText(file) then None else Some(file)
  {
    var m := ManifestOf(file, t);
    ManifestOfIsValid(file, t);
    StagingStaysOk(UNSTAGED, m, steps);
    var s := TakeAll(UNSTAGED, m, steps);
    StagedPartsAreTheFile(s, file, t);
    PartsRejoin(file);
  }

  /** A CSV file of an incomplete two-byte character and an ordinary byte: uploaded completely, assembled never. */
  lemma BrokenTextIsRefused()
    ensures
      var file := [0xC3, 0x28];
      var m := ManifestOf(file, Csv);
      var s := TakeAll(UNSTAGED, m, [Stage(0, [file], false), Record(0, false)]);
      AllRecorded(s, m) && Assembled(s, m) == None
  {
    var file: Bytes := [0xC3, 0x28];
    var m := ManifestOf(file, Csv);
    var steps := [Stage(0, [file], false), Record(0, false)];
    FeedTwo(READY, 0xC3, 0x28);
    assert PartOf(file, 0) == file && Concat([file]) == file;
    assert Sent(file, steps, 0, 0, 1);
    EveryPartSentCompletes(file, Csv, steps);
    UploadRoundTrip(file, Csv, steps);
  }

  /** The served ranges are the declared parts. */
  lemma RangesAreParts(file: Bytes, index: nat)
    requires index < PartCount(file)
    ensures ReadChunk(file, index) == Some(PartOf(file, index))
  {}

  /** A call sent this part whole, and a later one recorded it. */
  predicate Sent(file: Bytes, steps: seq<Step>, index: nat, j: nat, k: nat) {
    && index < PartCount(file) && j < k < |steps|
    && steps[j].Stage? && steps[j].index == index && !steps[j].stopped && Concat(steps[j].body) == PartOf(file, index)
    && steps[k] == Record(index, false)
  }

  ghost predicate EverSent(file: Bytes, steps: seq<Step>, index: nat) { exists j, k :: Sent(file, steps, index, j, k) }

  lemma {:induction false} StagedOrRecordedStays(s: Staging, m: Manifest, steps: seq<Step>)
    ensures var s' := TakeAll(s, m, steps);
      && (forall i | i in s.objects :: i in s'.objects && s'.objects[i] == s.objects[i])
      && (forall i | i in s.rows :: i in s'.rows && s'.rows[i] == s.rows[i])
    decreases steps
  {
    if steps != [] {
      var s1 := Take(s, m, steps[0]);
      assert forall i | i in s.objects :: i in s1.objects && s1.objects[i] == s.objects[i];
      assert forall i | i in s.rows :: i in s1.rows && s1.rows[i] == s.rows[i];
      StagedOrRecordedStays(s1, m, steps[1..]);
    }
  }

  lemma {:induction false} TakeAllSplits(s: Staging, m: Manifest, steps: seq<Step>, n: nat)
    requires n <= |steps|
    ensures TakeAll(s, m, steps) == TakeAll(TakeAll(s, m, steps[..n]), m, steps[n..])
    decreases steps
  {
    if n == 0 {
      assert steps[0..] == steps && steps[..0] == [];
    } else {
      TakeAllSplits(Take(s, m, steps[0]), m, steps[1..], n - 1);
      assert steps[..n][0] == steps[0] && steps[..n][1..] == steps[1..][..n - 1] && steps[1..][n - 1..] == steps[n..];
    }
  }

  lemma StepSplits(s: Staging, m: Manifest, steps: seq<Step>, n: nat)
    requires n < |steps|
    ensures TakeAll(s, m, steps) == TakeAll(Take(TakeAll(s, m, steps[..n]), m, steps[n]), m, steps[n + 1..])
  {
    TakeAllSplits(s, m, steps, n);
    assert steps[n..][0] == steps[n] && steps[n..][1..] == steps[n + 1..];
  }

  lemma SentPartIsRecorded(file: Bytes, t: ContentType, steps: seq<Step>, index: nat, j: nat, k: nat)
    requires Sent(file, steps, index, j, k) && (index == 0 ==> GoodStart(PartOf(file, 0), t))
    ensures index in TakeAll(UNSTAGED, ManifestOf(file, t), steps).rows
  {
    var m := ManifestOf(file, t);
    var before := TakeAll(UNSTAGED, m, steps[..k]);
    StepSplits(UNSTAGED, m, steps[..k], j);
    assert steps[..k][..j] == steps[..j] && steps[..k][j] == steps[j];
    StagedOrRecordedStays(Take(TakeAll(UNSTAGED, m, steps[..j]), m, steps[j]), m, steps[..k][j + 1..]);
    assert index in before.objects;
    StagingStaysOk(UNSTAGED, m, steps[..k]);
    StepSplits(UNSTAGED, m, steps, k);
    StagedOrRecordedStays(Take(before, m, steps[k]), m, steps[k + 1..]);
  }

  lemma FirstPartDecides(file: Bytes, t: ContentType)
    requires file != []
    ensures GoodStart(PartOf(file, 0), t) <==> GoodStart(file, t)
  {
    if |file| <= CHUNK_BYTES { assert PartOf(file, 0) == file; } else { StartDependsOnTwelve(file, t, CHUNK_BYTES); }
  }

  lemma SentPartsAreRecorded(file: Bytes, t: ContentType, steps: seq<Step>)
    requires forall i: nat | i < PartCount(file) :: EverSent(file, steps, i)
    requires PartCount(file) > 0 ==> GoodStart(PartOf(file, 0), t)
    ensures AllRecorded(TakeAll(UNSTAGED, ManifestOf(file, t), steps), ManifestOf(file, t))
  {
    var m := ManifestOf(file, t);
    StagingStaysOk(UNSTAGED, m, steps);
    forall i: nat | i < |m.parts| ensures i in TakeAll(UNSTAGED, m, steps).rows {
      assert EverSent(file, steps, i);
      var j, k :| Sent(file, steps, i, j, k);
      SentPartIsRecorded(file, t, steps, i, j, k);
    }
  }

  lemma RecordedStartIsGood(s: Staging, file: Bytes, t: ContentType)
    requires file != [] && StagingOk(s, ManifestOf(file, t)) && AllRecorded(s, ManifestOf(file, t))
    ensures GoodStart(PartOf(file, 0), t)
  {
    StagedPartsAreTheFile(s, file, t);
    assert 0 in s.objects && Pieces(s, PartCount(file))[0] == PartsOf(file)[0];
  }

  /**
   * Once every part was sent whole and recorded, in whatever order and among
   * whatever else, the upload is complete exactly when the file starts like its
   * declared type and not like a program.
   */
  lemma EveryPartSentCompletes(file: Bytes, t: ContentType, steps: seq<Step>)
    requires forall i: nat | i < PartCount(file) :: EverSent(file, steps, i)
    ensures AllRecorded(TakeAll(UNSTAGED, ManifestOf(file, t), steps), ManifestOf(file, t)) <==>
      file == [] || GoodStart(file, t)
  {
    var m := ManifestOf(file, t);
    StagingStaysOk(UNSTAGED, m, steps);
    var s := TakeAll(UNSTAGED, m, steps);
    if file != [] { FirstPartDecides(file, t); }
    if file == [] || GoodStart(file, t) { SentPartsAreRecorded(file, t, steps); }
    if AllRecorded(s, m) && file != [] { RecordedStartIsGood(s, file, t); }
  }

  /** Which files can be uploaded: those that start like their type and, if declared text, are clean text. */
  lemma UploadableIff(file: Bytes, t: ContentType, steps: seq<Step>)
    requires 0 < |file| <= MAX_BYTES && forall i: nat | i < PartCount(file) :: EverSent(file, steps, i)
    ensures
      var m := ManifestOf(file, t);
      var s := TakeAll(UNSTAGED, m, steps);
      AllRecorded(s, m) && Assembled(s, m) == Some(file) <==> GoodStart(file, t) && (IsText(t) ==> CleanText(file))
  {
    EveryPartSentCompletes(file, t, steps);
    if GoodStart(file, t) { UploadRoundTrip(file, t, steps); }
  }
}
