/**
 * The encrypted Android archive: message snapshots, and their originals cut into chunks, in three tables that change
 * in transactions.  Tables are kept in primary-key order, as the database keeps them.
 */
module AndroidArchiveStore {
  import opened Common
  import opened ByteSource

  const MAX_ROWS := 2000
  const PAGE_SIZE := 20
  const MAX_TL_BYTES := 60000
  const MAX_ORIGINAL_BYTES := 33554432
  const MAX_ORIGINALS_BYTES := 134217728
  const CHUNK_BYTES := 65536
  const MAX_STORED := 33574912
  /** The cipher's fixed overhead: magic, nonce and tag. */
  const OVERHEAD := 32

  /** An authenticated ciphertext: it opens only in the row and part it was sealed for. */
  datatype Sealed<T> = Sealed(row: int, part: nat, plain: T)
  {
    function Open(row: int, part: nat): Option<T> { if this.row == row && this.part == part then Some(plain) else None }
  }

  datatype Body = Body(dialog: int, message: int, reason: int, savedAt: int, text: string, tl: Bytes, media: bool)
  datatype Snapshot<H> = Snapshot(id: int, dialog: int, message: int, reason: int, createdAt: int, fingerprint: H,
      payload: Sealed<Body>)

  datatype Descriptor<H> = Descriptor(size: nat, chunks: nat, mime: string, digest: H)
  datatype Original<H> = Original(id: int, metadata: Sealed<Descriptor<H>>, stored: nat)
  datatype Part = Part(number: nat, payload: Sealed<Bytes>)

  /** A snapshot as it is listed. */
  datatype Entry<H> = Entry(id: int, message: int, reason: int, savedAt: int, text: string, media: bool,
      original: Option<Descriptor<H>>)

  // ----- descriptors

  predicate Letter(c: char) { 'a' <= c <= 'z' || 'A' <= c <= 'Z' }

  predicate Starter(c: char) { Letter(c) || '0' <= c <= '9' }

  predicate Token(c: char) { Starter(c) || c == '.' || c == '+' || c == '-' }

  predicate SlashAt(m: string, slash: nat) {
    && 0 < slash && slash + 1 < |m| && m[slash] == '/' && Letter(m[0]) && Starter(m[slash + 1])
    && forall i :: 0 <= i < |m| && i != slash ==> Token(m[i])
  }

  /** A type and a subtype around one slash, at most 127 characters. */
  predicate ValidMime(m: string) { |m| <= 127 && exists slash :: 0 <= slash < |m| && SlashAt(m, slash) }

  function Digits(n: nat): nat { if n < 10 then 1 else 1 + Digits(n / 10) }

  /** The length of the descriptor's JSON text: names, quotes and commas, the escaped slash, and 64 digest digits. */
  function DescriptorBytes<H>(d: Descriptor<H>): nat { 118 + Digits(d.size) + Digits(d.chunks) + |d.mime| }

  lemma {:induction false} DigitsGrow(n: nat, limit: nat)
    requires n <= limit
    ensures Digits(n) <= Digits(limit)
  {
    if limit >= 10 && n >= 10 {
      DigitsGrow(n / 10, limit / 10);
    }
  }

  /** No descriptor comes near the 4096 bytes the table allows. */
  lemma DescriptorIsSmall<H>(d: Descriptor<H>)
    requires d.size <= MAX_ORIGINAL_BYTES && d.chunks <= 512 && |d.mime| <= 127
    ensures DescriptorBytes(d) + OVERHEAD <= 288
  {
    DigitsGrow(d.size, 99999999);
    DigitsGrow(d.chunks, 999);
    assert Digits(99999999) == 8 && Digits(999) == 3 by {
      assert Digits(9) == 1 && Digits(99) == 2 && Digits(999) == 3 && Digits(9999) == 4 && Digits(99999) == 5
          && Digits(999999) == 6 && Digits(9999999) == 7;
    }
  }

  // ----- chunks

  function ChunkCount(size: nat): nat { (size + CHUNK_BYTES - 1) / CHUNK_BYTES }

  function Chunk(content: Bytes, k: nat, size: nat): Bytes
    requires k * CHUNK_BYTES <= size <= |content|
  {
    content[k * CHUNK_BYTES..Min((k + 1) * CHUNK_BYTES, size)]
  }

  /** The first `count` chunks of a content as table rows, numbered from 2. */
  function PartsUpTo(id: int, content: Bytes, size: nat, count: nat): (parts: seq<Part>)
    requires size <= |content| && (count == 0 || (count - 1) * CHUNK_BYTES <= size)
    ensures |parts| == count
  {
    if count == 0 then []
    else
      var last := Part(count + 1, Sealed(id, count + 1, Chunk(content, count - 1, size)));
      PartsUpTo(id, content, size, count - 1) + [last]
  }

  function PartsOf(id: int, content: Bytes): seq<Part> { PartsUpTo(id, content, |content|, ChunkCount(|content|)) }

  function PartBytes(parts: seq<Part>): nat {
    if parts == [] then 0 else PartBytes(parts[..|parts| - 1]) + |parts[|parts| - 1].payload.plain| + OVERHEAD
  }

  /** The joined plaintexts. */
  function Joined(parts: seq<Part>): Bytes {
    if parts == [] then [] else Joined(parts[..|parts| - 1]) + parts[|parts| - 1].payload.plain
  }

  lemma {:induction false} PartsHold(id: int, content: Bytes, size: nat, count: nat)
    requires size <= |content| && (count == 0 || (count - 1) * CHUNK_BYTES <= size)
    ensures Joined(PartsUpTo(id, content, size, count)) == content[..Min(count * CHUNK_BYTES, size)]
    ensures PartBytes(PartsUpTo(id, content, size, count)) == Min(count * CHUNK_BYTES, size) + count * OVERHEAD
    ensures forall k :: 0 <= k < count ==>
                PartsUpTo(id, content, size, count)[k] == Part(k + 2, Sealed(id, k + 2, Chunk(content, k, size)))
  {
    hide PartsUpTo, Joined, PartBytes, Chunk;
    if count == 0 {
      NoParts(id, content, size);
    } else {
      PartsHold(id, content, size, count - 1);
      LastPart(id, content, size, count);
      PartAfter(PartsUpTo(id, content, size, count - 1),
          Part(count + 1, Sealed(id, count + 1, Chunk(content, count - 1, size))));
      ChunkFollows(content, count - 1, size);
    }
  }

  lemma NoParts(id: int, content: Bytes, size: nat)
    requires size <= |content|
    ensures PartsUpTo(id, content, size, 0) == [] && Joined([]) == [] && PartBytes([]) == 0
  {
  }

  lemma LastPart(id: int, content: Bytes, size: nat, count: nat)
    requires size <= |content| && count > 0 && (count - 1) * CHUNK_BYTES <= size
    ensures PartsUpTo(id, content, size, count)
         == PartsUpTo(id, content, size, count - 1)
             + [Part(count + 1, Sealed(id, count + 1, Chunk(content, count - 1, size)))]
  {
  }

  lemma ChunkFollows(content: Bytes, k: nat, size: nat)
    requires k * CHUNK_BYTES <= size <= |content|
    ensures content[..Min(k * CHUNK_BYTES, size)]
                + Chunk(content, k, size) == content[..Min((k + 1) * CHUNK_BYTES, size)]
    ensures Min(k * CHUNK_BYTES, size) + |Chunk(content, k, size)| == Min((k + 1) * CHUNK_BYTES, size)
  {
  }

  lemma PartAfter(parts: seq<Part>, part: Part)
    ensures Joined(parts + [part]) == Joined(parts) + part.payload.plain
    ensures PartBytes(parts + [part]) == PartBytes(parts) + |part.payload.plain| + OVERHEAD
  {
    assert (parts + [part])[..|parts|] == parts;
  }

  lemma ChunkCountIs(size: nat)
    ensures ChunkCount(size) == 0 <==> size == 0
    ensures size > 0 ==> (ChunkCount(size) - 1) * CHUNK_BYTES < size <= ChunkCount(size) * CHUNK_BYTES
    ensures size <= MAX_ORIGINAL_BYTES ==> ChunkCount(size) <= 512
  {
  }

  // ----- quota

  function Weight<H>(o: Original<H>, parts: map<int, seq<Part>>): nat {
    DescriptorBytes(o.metadata.plain) + OVERHEAD + if o.id in parts then PartBytes(parts[o.id]) else 0
  }

  /** What the quota counts: the ciphertexts of all descriptors and parts. */
  function Total<H>(originals: seq<Original<H>>, parts: map<int, seq<Part>>): nat {
    if originals == [] then 0 else Weight(originals[0], parts) + Total(originals[1..], parts)
  }

  /** The lowest snapshot ids go first, and only as many as the quota asks for. */
  function Evicted<H>(originals: seq<Original<H>>, parts: map<int, seq<Part>>): seq<Original<H>> {
    if Total(originals, parts) <= MAX_ORIGINALS_BYTES then originals else Evicted(originals[1..], parts)
  }

  lemma {:induction false} EvictedIsShortest<H>(originals: seq<Original<H>>, parts: map<int, seq<Part>>)
      returns (gone: nat)
    ensures gone <= |originals| && Evicted(originals, parts) == originals[gone..]
    ensures Total(originals[gone..], parts) <= MAX_ORIGINALS_BYTES
    ensures forall fewer: nat :: fewer < gone ==> Total(originals[fewer..], parts) > MAX_ORIGINALS_BYTES
  {
    if Total(originals, parts) <= MAX_ORIGINALS_BYTES {
      assert originals[0..] == originals;
      gone := 0;
    } else {
      var rest := EvictedIsShortest(originals[1..], parts);
      gone := rest + 1;
      assert originals[1..][rest..] == originals[gone..];
      forall fewer: nat | fewer < gone ensures Total(originals[fewer..], parts) > MAX_ORIGINALS_BYTES {
        if fewer == 0 {
          assert originals[0..] == originals;
        } else {
          assert originals[fewer..] == originals[1..][fewer - 1..];
        }
      }
    }
  }

  lemma {:induction false} SuffixWeighsLess<H>(originals: seq<Original<H>>, parts: map<int, seq<Part>>, first: nat,
      later: nat)
    requires first <= later <= |originals|
    ensures Total(originals[later..], parts) <= Total(originals[first..], parts)
    decreases later - first
  {
    if first < later {
      SuffixWeighsLess(originals, parts, first + 1, later);
      assert originals[first..][1..] == originals[first + 1..];
    }
  }

  /** An original survives the quota if and only if it and all originals of higher snapshots fit together. */
  lemma SurvivesExactly<H>(originals: seq<Original<H>>, parts: map<int, seq<Part>>, k: nat)
    requires Ascending(originals) && k < |originals|
    ensures HasOriginal(Evicted(originals, parts), originals[k].id) <==>
              Total(originals[k..], parts) <= MAX_ORIGINALS_BYTES
  {
    var gone := EvictedIsShortest(originals, parts);
    if gone <= k {
      SuffixWeighsLess(originals, parts, gone, k);
      assert originals[gone..][k - gone].id == originals[k].id;
    } else {
      assert forall i :: 0 <= i < |originals[gone..]| ==> originals[gone..][i].id == originals[gone + i].id;
    }
  }

  ghost predicate Ascending<H>(originals: seq<Original<H>>) {
    forall i, j :: 0 <= i < j < |originals| ==> originals[i].id < originals[j].id
  }

  /** Insertion by primary key. */
  function Inserted<H>(originals: seq<Original<H>>, o: Original<H>): seq<Original<H>> {
    if originals == [] || o.id < originals[0].id then [o] + originals else [originals[0]] + Inserted(originals[1..], o)
  }

  /** The new row sits between the lower and the higher ids, which stay as they were. */
  lemma {:induction false} InsertedAt<H>(originals: seq<Original<H>>, o: Original<H>) returns (k: nat)
    requires Ascending(originals) && forall i :: 0 <= i < |originals| ==> originals[i].id != o.id
    ensures k <= |originals| && Inserted(originals, o) == originals[..k] + [o] + originals[k..]
    ensures forall i :: 0 <= i < k ==> originals[i].id < o.id
    ensures forall i :: k <= i < |originals| ==> o.id < originals[i].id
  {
    if originals == [] || o.id < originals[0].id {
      k := 0;
    } else {
      var rest := InsertedAt(originals[1..], o);
      k := rest + 1;
      assert originals[..k] == [originals[0]] + originals[1..][..rest] && originals[1..][rest..] == originals[k..];
      assert forall i :: 1 <= i < |originals| ==> originals[i] == originals[1..][i - 1];
    }
  }

  lemma {:induction false} TotalOfInserted<H>(originals: seq<Original<H>>, o: Original<H>, parts: map<int, seq<Part>>)
    ensures Total(Inserted(originals, o), parts) == Total(originals, parts) + Weight(o, parts)
  {
    if originals == [] || o.id < originals[0].id {
      assert ([o] + originals)[1..] == originals;
    } else {
      TotalOfInserted(originals[1..], o, parts);
      assert ([originals[0]] + Inserted(originals[1..], o))[1..] == Inserted(originals[1..], o);
    }
  }

  lemma {:induction false} TotalOfOthers<H>(originals: seq<Original<H>>, parts: map<int, seq<Part>>,
      more: map<int, seq<Part>>)
    requires forall i :: 0 <= i < |originals| ==> Weight(originals[i], parts) == Weight(originals[i], more)
    ensures Total(originals, parts) == Total(originals, more)
  {
    if originals != [] {
      TotalOfOthers(originals[1..], parts, more);
    }
  }

  /** The quota's figure is the sum of what the originals weigh, one by one. */
  lemma {:induction false} TotalIsSum<H>(originals: seq<Original<H>>, more: seq<Original<H>>,
      parts: map<int, seq<Part>>)
    ensures Total(originals + more, parts) == Total(originals, parts) + Total(more, parts)
    ensures |originals| == 1 ==> Total(originals, parts) == Weight(originals[0], parts)
  {
    if originals == [] {
      assert originals + more == more;
    } else {
      TotalIsSum(originals[1..], more, parts);
      assert (originals + more)[0] == originals[0] && (originals + more)[1..] == originals[1..] + more;
    }
  }

  /** An original weighs all of its content, 32 bytes for each chunk of it, and its descriptor. */
  lemma WeightIsBytes<H>(o: Original<H>, parts: map<int, seq<Part>>, content: Bytes, hash: Bytes -> H)
    requires OriginalOk(o, parts, content, hash)
    ensures Weight(o, parts) == |content| + 32 * ((|content| + 65535) / 65536) + DescriptorBytes(o.metadata.plain) + 32
    ensures o.stored == Weight(o, parts)
  {
    PartsOfContent(o.id, content);
    hide PartsOf, Follows, ValidMime, DescriptorBytes, Joined, PartBytes;
  }

  // ----- the descriptor's text

  function Decimal(n: nat): string {
    if n < 10 then ["0123456789"[n]] else Decimal(n / 10) + ["0123456789"[n % 10]]
  }

  /** JSON escapes the slash. */
  function Escaped(m: string): string {
    if m == "" then "" else (if m[0] == '/' then "\\/" else [m[0]]) + Escaped(m[1..])
  }

  function DescriptorText<H>(d: Descriptor<H>, digest: string): string {
    "{\"version\":1,\"size\":" + Decimal(d.size) + ",\"chunks\":" + Decimal(d.chunks) + ",\"mime\":\""
    + Escaped(d.mime) + "\",\"sha256\":\"" + digest + "\"}"
  }

  lemma {:induction false} DecimalLength(n: nat)
    ensures |Decimal(n)| == Digits(n)
  {
    if n >= 10 {
      DecimalLength(n / 10);
    }
  }

  lemma {:induction false} EscapedLength(m: string, slash: int)
    requires slash < |m| && forall i :: 0 <= i < |m| ==> (m[i] == '/' <==> i == slash)
    ensures |Escaped(m)| == |m| + if slash >= 0 then 1 else 0
    decreases |m|
  {
    if m != "" {
      EscapedLength(m[1..], if slash <= 0 then -1 else slash - 1);
    }
  }

  /** What the quota counts for a descriptor is the length of its text. */
  lemma DescriptorTextLength<H>(d: Descriptor<H>, digest: string)
    requires ValidMime(d.mime) && |digest| == 64
    ensures |DescriptorText(d, digest)| == DescriptorBytes(d)
  {
    DecimalLength(d.size);
    DecimalLength(d.chunks);
    var slash :| 0 <= slash < |d.mime| && SlashAt(d.mime, slash);
    EscapedLength(d.mime, slash);
    hide Decimal, Digits, Escaped;
  }

  // ----- the tables and what they hold together

  datatype Tables<H> = Tables(snapshots: seq<Snapshot<H>>, originals: seq<Original<H>>, parts: map<int, seq<Part>>)

  /** The columns that must not repeat. */
  function Key<H>(row: Snapshot<H>): (int, int, int, H) { (row.dialog, row.message, row.reason, row.fingerprint) }

  ghost predicate SnapshotsOk<H>(snapshots: seq<Snapshot<H>>) {
    && (forall i :: 0 <= i < |snapshots| ==> RowOk(snapshots[i]))
    && (forall i, j :: 0 <= i < j < |snapshots| ==>
         snapshots[i].id < snapshots[j].id && Key(snapshots[i]) != Key(snapshots[j]))
  }

  /** A row whose payload opens for it and repeats its columns. */
  predicate RowOk<H>(row: Snapshot<H>) {
    && row.id > 0 && row.payload.row == row.id && row.payload.part == 0
    && row.payload.plain.dialog == row.dialog && row.payload.plain.message == row.message
    && row.payload.plain.reason == row.reason && row.payload.plain.savedAt == row.createdAt
  }

  /** A snapshot of this message, reason and fingerprint is there. */
  ghost predicate Kept<H>(snapshots: seq<Snapshot<H>>, key: (int, int, int, H)) {
    exists i :: 0 <= i < |snapshots| && Key(snapshots[i]) == key
  }

  predicate HasRow<H>(snapshots: seq<Snapshot<H>>, id: int) {
    exists i :: 0 <= i < |snapshots| && snapshots[i].id == id
  }

  predicate HasOriginal<H>(originals: seq<Original<H>>, id: int) {
    exists i :: 0 <= i < |originals| && originals[i].id == id
  }

  /** An original whose descriptor and parts are those of this content. */
  ghost predicate OriginalOk<H>(o: Original<H>, parts: map<int, seq<Part>>, content: Bytes, hash: Bytes -> H) {
    && 0 < |content| <= MAX_ORIGINAL_BYTES && o.id in parts && parts[o.id] == PartsOf(o.id, content)
    && o.metadata.row == o.id && o.metadata.part == 1
    && o.metadata.plain.size == |content| && o.metadata.plain.chunks == ChunkCount(|content|)
    && o.metadata.plain.digest == hash(content) && ValidMime(o.metadata.plain.mime)
    && o.stored == Weight(o, parts)
  }

  /**
   * Every original belongs to a snapshot and is whole, and every part to an original; `contents` are the originals as
   * they were given.
   */
  ghost predicate TablesOk<H>(t: Tables<H>, contents: map<int, Bytes>, hash: Bytes -> H) {
    && SnapshotsOk(t.snapshots) && Ascending(t.originals)
    && (forall i :: 0 <= i < |t.originals| ==> Belongs(t.originals[i], t.snapshots, t.parts, contents, hash))
    && (forall id :: id in t.parts ==> HasOriginal(t.originals, id))
  }

  ghost predicate Belongs<H>(o: Original<H>, snapshots: seq<Snapshot<H>>, parts: map<int, seq<Part>>,
      contents: map<int, Bytes>, hash: Bytes -> H)
  {
    HasRow(snapshots, o.id) && o.id in contents && OriginalOk(o, parts, contents[o.id], hash)
  }

  lemma ChunkLength(content: Bytes, k: nat)
    requires k < ChunkCount(|content|)
    ensures k * CHUNK_BYTES <= |content|
    ensures |Chunk(content, k, |content|)| == Min(CHUNK_BYTES, |content| - k * CHUNK_BYTES)
    ensures 1 <= |Chunk(content, k, |content|)| <= CHUNK_BYTES
  {
  }

  /**
   * A content's rows: contiguous from number 2 to at most 513, within the table's limits, and joining to the content.
   */
  lemma PartsOfContent(id: int, content: Bytes)
    requires 0 < |content| <= MAX_ORIGINAL_BYTES
    ensures var parts := PartsOf(id, content);
            && |parts| == ChunkCount(|content|) && 1 <= |parts| <= 512 && Joined(parts) == content
            && PartBytes(parts) == |content| + |parts| * OVERHEAD
            && Follows(parts, id, |content|, |parts|)
            && forall k :: 0 <= k < |parts| ==>
                 parts[k].number == k + 2 <= 513 && 1 <= |parts[k].payload.plain| <= CHUNK_BYTES
  {
    ChunkCountIs(|content|);
    PartsHold(id, content, |content|, ChunkCount(|content|));
    var parts := PartsOf(id, content);
    assert content[..|content|] == content;
    hide PartsOf, PartsUpTo, ChunkCount, Chunk, Joined, PartBytes;
    forall k | 0 <= k < |parts|
      ensures |parts[k].payload.plain| == Min(CHUNK_BYTES, |content| - k * CHUNK_BYTES)
      ensures 1 <= |parts[k].payload.plain| <= CHUNK_BYTES
    {
      ChunkLength(content, k);
    }
  }

  /** What the tables allow: at most 33574912 stored bytes, 4096 of them for the descriptor. */
  lemma OriginalIsBounded<H>(o: Original<H>, parts: map<int, seq<Part>>, content: Bytes, hash: Bytes -> H)
    requires OriginalOk(o, parts, content, hash)
    ensures DescriptorBytes(o.metadata.plain) + OVERHEAD <= 4096 && o.stored <= MAX_STORED
  {
    ChunkCountIs(|content|);
    PartsOfContent(o.id, content);
    MimeIsShort(o.metadata.plain.mime);
    hide ValidMime, PartsOf, Follows, ChunkCount, DescriptorBytes;
    DescriptorIsSmall(o.metadata.plain);
  }

  lemma MimeIsShort(m: string)
    requires ValidMime(m)
    ensures |m| <= 127
  {
  }

  // ----- reading an original back

  /** The parts follow each other from number 2, open, and have the lengths the descriptor gives them. */
  predicate Follows(parts: seq<Part>, id: int, size: nat, count: nat)
    requires count <= |parts|
  {
    forall k :: 0 <= k < count ==>
      && parts[k].number == k + 2 && parts[k].payload.Open(id, k + 2).Some?
      && |parts[k].payload.plain| == Min(CHUNK_BYTES, size - k * CHUNK_BYTES)
  }

  /** What `writeOriginal` accepts. */
  predicate Complete<H(==)>(d: Descriptor<H>, parts: seq<Part>, id: int, hash: Bytes -> H) {
    && |parts| == d.chunks && Follows(parts, id, d.size, |parts|) && |Joined(parts)| == d.size
    && hash(Joined(parts)) == d.digest
  }

  lemma SavedIsComplete<H>(o: Original<H>, parts: map<int, seq<Part>>, content: Bytes, hash: Bytes -> H)
    requires OriginalOk(o, parts, content, hash)
    ensures Complete(o.metadata.plain, parts[o.id], o.id, hash) && Joined(parts[o.id]) == content
  {
    PartsOfContent(o.id, content);
    hide ValidMime, PartsOf, Follows, ChunkCount, DescriptorBytes, PartBytes, Joined;
  }

  function FindRow<H>(snapshots: seq<Snapshot<H>>, id: int): Option<Snapshot<H>> {
    if snapshots == [] then None else if snapshots[0].id == id then Some(snapshots[0]) else FindRow(snapshots[1..], id)
  }

  function FindOriginal<H>(originals: seq<Original<H>>, id: int): Option<Original<H>> {
    if originals == [] then None else if originals[0].id == id then Some(originals[0])
    else FindOriginal(originals[1..], id)
  }

  /** A descriptor that opens for its row and whose fields fit together. */
  predicate DescriptorOk<H>(o: Original<H>, id: int) {
    && o.metadata.Open(id, 1).Some? && 0 < o.metadata.plain.size <= MAX_ORIGINAL_BYTES
    && o.metadata.plain.chunks == ChunkCount(o.metadata.plain.size) && ValidMime(o.metadata.plain.mime)
  }

  /** What restoring an original yields, on any tables whatever. */
  function Restored<H(==)>(t: Tables<H>, id: int, hash: Bytes -> H): Result<Bytes> {
    var row, o := FindRow(t.snapshots, id), FindOriginal(t.originals, id);
    var parts := if id in t.parts then t.parts[id] else [];
    if row.None? || !RowOk(row.value) || o.None? || !DescriptorOk(o.value, id)
        || !Complete(o.value.metadata.plain, parts, id, hash) then Failed
    else Ok(Joined(parts))
  }

  lemma {:induction false} FoundRow<H>(snapshots: seq<Snapshot<H>>, id: int)
    requires SnapshotsOk(snapshots)
    ensures HasRow(snapshots, id) <==> FindRow(snapshots, id).Some?
    ensures FindRow(snapshots, id).Some? ==>
              FindRow(snapshots, id).value.id == id && RowOk(FindRow(snapshots, id).value)
  {
    if snapshots != [] && snapshots[0].id != id {
      var rest := snapshots[1..];
      FoundRow(rest, id);
      if HasRow(snapshots, id) {
        var i :| 0 <= i < |snapshots| && snapshots[i].id == id;
        assert rest[i - 1].id == id;
      }
    }
  }

  lemma {:induction false} FoundOriginal<H>(originals: seq<Original<H>>, id: int)
    ensures HasOriginal(originals, id) <==> FindOriginal(originals, id).Some?
    ensures FindOriginal(originals, id).Some? ==>
              FindOriginal(originals, id).value in originals && FindOriginal(originals, id).value.id == id
  {
    if originals != [] && originals[0].id != id {
      var rest := originals[1..];
      FoundOriginal(rest, id);
      if HasOriginal(originals, id) {
        var i :| 0 <= i < |originals| && originals[i].id == id;
        assert rest[i - 1].id == id;
      }
    }
  }

  /** In sound tables an original can be restored exactly while its row is there, and comes back byte for byte. */
  lemma RestoredIsContent<H>(t: Tables<H>, contents: map<int, Bytes>, id: int, hash: Bytes -> H)
    requires TablesOk(t, contents, hash)
    ensures HasOriginal(t.originals, id) ==> id in contents && Restored(t, id, hash) == Ok(contents[id])
    ensures !HasOriginal(t.originals, id) ==> Restored(t, id, hash) == Failed
  {
    FoundRow(t.snapshots, id);
    FoundOriginal(t.originals, id);
    if HasOriginal(t.originals, id) {
      var o := FindOriginal(t.originals, id).value;
      assert Belongs(o, t.snapshots, t.parts, contents, hash);
      hide ValidMime, RowOk, Complete, ChunkCount, Joined, PartsOf;
      SavedIsComplete(o, t.parts, contents[id], hash);
    }
  }

  /** The place of chunk `k` in a content of this size. */
  predicate InPlace(content: Bytes, k: nat, size: nat, chunk: Bytes) {
    k * CHUNK_BYTES < size && Min((k + 1) * CHUNK_BYTES, size) <= |content|
        && content[k * CHUNK_BYTES..Min((k + 1) * CHUNK_BYTES, size)] == chunk
  }

  lemma StillInPlace(content: Bytes, k: nat, size: nat, chunk: Bytes, more: Bytes)
    requires InPlace(content, k, size, chunk)
    ensures InPlace(content + more, k, size, chunk)
  {
  }

  lemma LastInPlace(content: Bytes, k: nat, size: nat, chunk: Bytes)
    requires |content| == k * CHUNK_BYTES < size && |chunk| == Min(CHUNK_BYTES, size - k * CHUNK_BYTES)
    ensures InPlace(content + chunk, k, size, chunk) && |content + chunk| == Min((k + 1) * CHUNK_BYTES, size)
  {
  }

  lemma StartsWithin(k: nat, size: nat)
    requires k < ChunkCount(size)
    ensures k * CHUNK_BYTES < size
  {
  }

  /** Joining gives each part its place. */
  lemma {:induction false} JoinedSlice(parts: seq<Part>, id: int, size: nat, count: nat)
    requires count <= |parts| && Follows(parts, id, size, count) && count <= ChunkCount(size)
    ensures |Joined(parts[..count])| == Min(count * CHUNK_BYTES, size)
    ensures forall k :: 0 <= k < count ==> InPlace(Joined(parts[..count]), k, size, parts[k].payload.plain)
  {
    if count > 0 {
      var k, chunk := count - 1, parts[count - 1].payload.plain;
      JoinedSlice(parts, id, size, k);
      assert parts[..count][..k] == parts[..k];
      StartsWithin(k, size);
      var before := Joined(parts[..k]);
      assert Joined(parts[..count]) == before + chunk;
      hide InPlace, Joined, ChunkCount;
      LastInPlace(before, k, size, chunk);
      forall i | 0 <= i < k ensures InPlace(before + chunk, i, size, parts[i].payload.plain) {
        StillInPlace(before, i, size, parts[i].payload.plain, chunk);
      }
    }
  }

  /**
   * Whatever the tables hold, restoring gives bytes only if they have the descriptor's length and digest and are, chunk
   * by chunk, the parts that opened for this row and number, all of them and no others.
   */
  lemma RestoredIsChecked<H>(t: Tables<H>, id: int, hash: Bytes -> H)
    requires Restored(t, id, hash).Ok?
    ensures exists o :: o in t.originals && o.id == id && Checked(o, if id in t.parts then t.parts[id] else [],
                Restored(t, id, hash).value, hash)
  {
    FoundOriginal(t.originals, id);
    var o := FindOriginal(t.originals, id).value;
    var parts := if id in t.parts then t.parts[id] else [];
    JoinedSlice(parts, id, o.metadata.plain.size, |parts|);
    assert parts[..|parts|] == parts;
    assert Checked(o, parts, Restored(t, id, hash).value, hash);
  }

  ghost predicate Checked<H>(o: Original<H>, parts: seq<Part>, content: Bytes, hash: Bytes -> H) {
    && o.metadata.row == o.id && o.metadata.part == 1
    && 0 < |content| == o.metadata.plain.size <= 33554432 && hash(content) == o.metadata.plain.digest
    && |parts| == (|content| + 65535) / 65536
    && forall k :: 0 <= k < |parts| ==>
         && parts[k].number == parts[k].payload.part == k + 2 && parts[k].payload.row == o.id
         && k * 65536 < |content| && parts[k].payload.plain == content[k * 65536..Min((k + 1) * 65536, |content|)]
  }

  // ----- what the transactions keep

  lemma RowAppended<H>(t: Tables<H>, row: Snapshot<H>, contents: map<int, Bytes>, hash: Bytes -> H)
    requires TablesOk(t, contents, hash) && RowOk(row)
    requires forall i :: 0 <= i < |t.snapshots| ==> t.snapshots[i].id < row.id && Key(t.snapshots[i]) != Key(row)
    ensures TablesOk(t.(snapshots := t.snapshots + [row]), contents, hash)
  {
    hide OriginalOk, RowOk;
    var more := t.snapshots + [row];
    forall i | 0 <= i < |t.originals| ensures Belongs(t.originals[i], more, t.parts, contents, hash) {
      assert Belongs(t.originals[i], t.snapshots, t.parts, contents, hash);
      var k :| 0 <= k < |t.snapshots| && t.snapshots[k].id == t.originals[i].id;
      assert more[k].id == t.originals[i].id;
    }
    assert forall i :: 0 <= i < |more| ==> RowOk(more[i]);
  }

  /** The lowest snapshot goes, and takes its original and its parts along. */
  function Cascaded<H>(t: Tables<H>): Tables<H>
    requires t.snapshots != []
  {
    var id := t.snapshots[0].id;
    Tables(t.snapshots[1..], if t.originals != [] && t.originals[0].id == id then t.originals[1..]
        else t.originals, t.parts - {id})
  }

  lemma CascadedIs<H>(t: Tables<H>)
    requires t.snapshots != []
    ensures var id := t.snapshots[0].id;
            Cascaded(t) == Tables(t.snapshots[1..], if t.originals != [] && t.originals[0].id == id
                then t.originals[1..] else t.originals, t.parts - {id})
  {
  }

  /** A new snapshot, and what it pushes out. */
  function Saved<H>(t: Tables<H>, row: Snapshot<H>): Tables<H> {
    var more := t.(snapshots := t.snapshots + [row]);
    if |more.snapshots| > MAX_ROWS then Cascaded(more) else more
  }

  lemma OthersStay<H>(o: Original<H>, parts: map<int, seq<Part>>, less: map<int, seq<Part>>, content: Bytes,
      hash: Bytes -> H)
    requires OriginalOk(o, parts, content, hash) && o.id in less && less[o.id] == parts[o.id]
    ensures OriginalOk(o, less, content, hash) && Weight(o, less) == Weight(o, parts)
  {
    hide ValidMime, PartsOf, ChunkCount, PartBytes, DescriptorBytes;
  }

  lemma RowDropped<H>(t: Tables<H>, contents: map<int, Bytes>, hash: Bytes -> H)
    requires TablesOk(t, contents, hash) && t.snapshots != []
    requires forall i :: 0 <= i < |t.originals| ==> t.originals[i].id != t.snapshots[0].id
    ensures TablesOk(t.(snapshots := t.snapshots[1..]), contents, hash)
  {
    hide OriginalOk, RowOk;
    var rest := t.snapshots[1..];
    forall i | 0 <= i < |t.originals| ensures Belongs(t.originals[i], rest, t.parts, contents, hash) {
      assert Belongs(t.originals[i], t.snapshots, t.parts, contents, hash);
      StillHasRow(t.snapshots, t.originals[i].id);
    }
    assert forall i :: 0 <= i < |rest| ==> rest[i] == t.snapshots[i + 1];
  }

  lemma CascadedIsOk<H>(t: Tables<H>, contents: map<int, Bytes>, hash: Bytes -> H)
    requires TablesOk(t, contents, hash) && t.snapshots != []
    ensures TablesOk(Cascaded(t), contents, hash)
    ensures Total(Cascaded(t).originals, Cascaded(t).parts) <= Total(t.originals, t.parts)
  {
    var id := t.snapshots[0].id;
    LowestFirst(t, contents, hash);
    if t.originals != [] && t.originals[0].id == id {
      FirstEvicted(t, contents, hash);
      var u := t.(originals := t.originals[1..], parts := t.parts - {id});
      hide TablesOk, Total, Weight;
      RowDropped(u, contents, hash);
      TotalOfRest(t.originals, t.parts);
    } else {
      assert id !in t.parts by { hide Belongs, SnapshotsOk; }
      assert t.parts - {id} == t.parts;
      hide TablesOk, Total, Weight;
      RowDropped(t, contents, hash);
    }
  }

  /** Exactly what belongs to the lowest snapshot goes with it. */
  lemma CascadedDrops<H>(t: Tables<H>, contents: map<int, Bytes>, hash: Bytes -> H)
    requires TablesOk(t, contents, hash) && t.snapshots != []
    ensures var id := t.snapshots[0].id;
            && Cascaded(t).originals == t.originals[if HasOriginal(t.originals, id) then 1 else 0..]
            && (forall i :: 0 <= i < |Cascaded(t).originals| ==> Cascaded(t).originals[i].id != id)
            && Cascaded(t).parts == t.parts - {id}
  {
    LowestFirst(t, contents, hash);
    hide TablesOk;
    var id := t.snapshots[0].id;
    assert HasOriginal(t.originals, id) <==> t.originals != [] && t.originals[0].id == id;
    assert t.originals[0..] == t.originals;
  }

  lemma TotalOfRest<H>(originals: seq<Original<H>>, parts: map<int, seq<Part>>)
    requires originals != []
    ensures Total(originals[1..], parts) <= Total(originals, parts)
  {
  }

  lemma PartsKnown<H>(o: Original<H>, parts: map<int, seq<Part>>, content: Bytes, hash: Bytes -> H)
    requires OriginalOk(o, parts, content, hash)
    ensures o.id in parts
  {
  }

  lemma StillHasRow<H>(snapshots: seq<Snapshot<H>>, id: int)
    requires HasRow(snapshots, id) && snapshots[0].id != id
    ensures HasRow(snapshots[1..], id)
  {
    var k :| 0 <= k < |snapshots| && snapshots[k].id == id;
    assert snapshots[1..][k - 1].id == id;
  }

  /** Only the first original can belong to the lowest snapshot. */
  lemma LowestFirst<H>(t: Tables<H>, contents: map<int, Bytes>, hash: Bytes -> H)
    requires TablesOk(t, contents, hash) && t.snapshots != []
    ensures forall i :: 0 < i < |t.originals| ==> t.originals[i].id != t.snapshots[0].id
  {
    hide OriginalOk, RowOk;
    forall i | 0 < i < |t.originals| ensures t.originals[i].id != t.snapshots[0].id {
      assert Belongs(t.originals[0], t.snapshots, t.parts, contents, hash);
      var k :| 0 <= k < |t.snapshots| && t.snapshots[k].id == t.originals[0].id;
    }
  }

  /** The lowest original goes, and takes its parts along. */
  lemma FirstEvicted<H>(t: Tables<H>, contents: map<int, Bytes>, hash: Bytes -> H)
    requires TablesOk(t, contents, hash) && t.originals != []
    ensures var u := t.(originals := t.originals[1..], parts := t.parts - {t.originals[0].id});
            && TablesOk(u, contents, hash) && Total(u.originals, u.parts) == Total(u.originals, t.parts)
            && forall i :: 0 <= i < |u.originals| ==> Weight(u.originals[i], u.parts) == Weight(u.originals[i], t.parts)
  {
    hide OriginalOk, RowOk, Weight;
    var u := t.(originals := t.originals[1..], parts := t.parts - {t.originals[0].id});
    forall i | 0 <= i < |u.originals|
      ensures Belongs(u.originals[i], u.snapshots, u.parts, contents, hash)
      ensures Weight(u.originals[i], u.parts) == Weight(u.originals[i], t.parts)
    {
      var o := t.originals[i + 1];
      assert Belongs(o, t.snapshots, t.parts, contents, hash);
      PartsKnown(o, t.parts, contents[o.id], hash);
      OthersStay(o, t.parts, u.parts, contents[o.id], hash);
    }
    TotalOfOthers(u.originals, t.parts, u.parts);
    forall p | p in u.parts ensures HasOriginal(u.originals, p) {
      var k :| 0 <= k < |t.originals| && t.originals[k].id == p;
      assert u.originals[k - 1].id == p;
    }
  }

  /** The row and the descriptor saved for a content. */
  function OriginalOf<H>(id: int, content: Bytes, mime: string, hash: Bytes -> H): Original<H> {
    var d := Descriptor(|content|, ChunkCount(|content|), mime, hash(content));
    Original(id, Sealed(id, 1, d), DescriptorBytes(d) + OVERHEAD + PartBytes(PartsOf(id, content)))
  }

  lemma AddedBelongs<H>(t: Tables<H>, id: int, content: Bytes, mime: string, contents: map<int, Bytes>,
      hash: Bytes -> H)
    requires HasRow(t.snapshots, id) && 0 < |content| <= MAX_ORIGINAL_BYTES && ValidMime(mime)
    ensures Belongs(OriginalOf(id, content, mime, hash), t.snapshots, t.parts[id := PartsOf(id, content)],
                contents[id := content], hash)
  {
    hide ValidMime, PartsOf, ChunkCount, PartBytes, DescriptorBytes;
  }

  lemma OtherBelongs<H>(o: Original<H>, t: Tables<H>, id: int, content: Bytes, contents: map<int, Bytes>,
      hash: Bytes -> H)
    requires Belongs(o, t.snapshots, t.parts, contents, hash) && o.id != id
    ensures Belongs(o, t.snapshots, t.parts[id := PartsOf(id, content)], contents[id := content], hash)
  {
    hide PartsOf, OriginalOk;
    PartsKnown(o, t.parts, contents[o.id], hash);
    OthersStay(o, t.parts, t.parts[id := PartsOf(id, content)], contents[o.id], hash);
  }

  lemma InsertedAscends<H>(originals: seq<Original<H>>, o: Original<H>, k: nat)
    requires Ascending(originals) && k <= |originals|
    requires forall i :: 0 <= i < k ==> originals[i].id < o.id
    requires forall i :: k <= i < |originals| ==> o.id < originals[i].id
    ensures Ascending(originals[..k] + [o] + originals[k..])
  {
    var all := originals[..k] + [o] + originals[k..];
    forall i, j | 0 <= i < j < |all| ensures all[i].id < all[j].id {
      if i < k && k < j {
        assert originals[i].id < o.id < originals[j - 1].id;
      }
    }
  }

  lemma InsertedRows<H>(originals: seq<Original<H>>, o: Original<H>)
    requires Ascending(originals) && forall i :: 0 <= i < |originals| ==> originals[i].id != o.id
    ensures Ascending(Inserted(originals, o)) && HasOriginal(Inserted(originals, o), o.id)
    ensures forall i :: 0 <= i < |Inserted(originals, o)| ==>
                Inserted(originals, o)[i] == o || Inserted(originals, o)[i] in originals
    ensures forall i :: 0 <= i < |originals| ==> HasOriginal(Inserted(originals, o), originals[i].id)
  {
    hide Inserted, Ascending;
    var k := InsertedAt(originals, o);
    var all := Inserted(originals, o);
    InsertedAscends(originals, o, k);
    assert all[k] == o;
    forall i | 0 <= i < |originals| ensures HasOriginal(all, originals[i].id) {
      assert all[if i < k then i else i + 1] == originals[i];
    }
  }

  lemma NoOriginal<H>(originals: seq<Original<H>>, id: int)
    requires !HasOriginal(originals, id)
    ensures forall i :: 0 <= i < |originals| ==> originals[i].id != id
  {
  }

  /** If the new row survives the quota, it is the one that is found. */
  lemma NewestFound<H>(originals: seq<Original<H>>, o: Original<H>, parts: map<int, seq<Part>>)
    requires Ascending(originals) && !HasOriginal(originals, o.id)
    ensures var left := Evicted(Inserted(originals, o), parts);
            HasOriginal(left, o.id) ==> FindOriginal(left, o.id) == Some(o)
  {
    NoOriginal(originals, o.id);
    InsertedRows(originals, o);
    var left := Evicted(Inserted(originals, o), parts);
    var gone := EvictedIsShortest(Inserted(originals, o), parts);
    FoundOriginal(left, o.id);
    hide Evicted, Inserted, FindOriginal, Total;
    if HasOriginal(left, o.id) {
      var found := FindOriginal(left, o.id).value;
      var k :| 0 <= k < |left| && left[k] == found;
      assert Inserted(originals, o)[gone + k] == found;
    }
  }

  lemma OriginalAdded<H>(t: Tables<H>, id: int, content: Bytes, mime: string, contents: map<int, Bytes>,
      hash: Bytes -> H)
    requires TablesOk(t, contents, hash) && HasRow(t.snapshots, id) && !HasOriginal(t.originals, id)
    requires 0 < |content| <= MAX_ORIGINAL_BYTES && ValidMime(mime)
    ensures TablesOk(t.(originals := Inserted(t.originals, OriginalOf(id, content, mime, hash)),
                parts := t.parts[id := PartsOf(id, content)]), contents[id := content], hash)
  {
    assert OriginalOf(id, content, mime, hash).id == id;
    hide *;
    var o := OriginalOf(id, content, mime, hash);
    var all, more := Inserted(t.originals, o), t.parts[id := PartsOf(id, content)];
    NoOriginal(t.originals, id);
    TablesAre(t, contents, hash);
    AddedBelongs(t, id, content, mime, contents, hash);
    InsertedRows(t.originals, o);
    forall i | 0 <= i < |t.originals|
      ensures Belongs(t.originals[i], t.snapshots, more, contents[id := content], hash)
    {
      OtherBelongs(t.originals[i], t, id, content, contents, hash);
    }
    forall p | p in more ensures HasOriginal(all, p) {
      if p != id {
        OriginalAt(t.originals, p);
      }
    }
    TablesAre(t.(originals := all, parts := more), contents[id := content], hash);
  }

  lemma TablesAre<H>(t: Tables<H>, contents: map<int, Bytes>, hash: Bytes -> H)
    ensures TablesOk(t, contents, hash) <==>
              && SnapshotsOk(t.snapshots) && Ascending(t.originals)
              && (forall i :: 0 <= i < |t.originals| ==> Belongs(t.originals[i], t.snapshots, t.parts, contents, hash))
              && (forall id :: id in t.parts ==> HasOriginal(t.originals, id))
  {
    hide SnapshotsOk, Ascending, Belongs, HasOriginal;
  }

  lemma OriginalAt<H>(originals: seq<Original<H>>, id: int)
    requires HasOriginal(originals, id)
    ensures exists i :: 0 <= i < |originals| && originals[i].id == id
  {
  }

  // ----- paging

  /** The dialog's ids below `before`, newest first; zero stands for no bound. */
  function Listed<H>(snapshots: seq<Snapshot<H>>, dialog: int, before: int): seq<int> {
    if snapshots == [] then []
    else
      var last := snapshots[|snapshots| - 1];
      var rest := Listed(snapshots[..|snapshots| - 1], dialog, before);
      if last.dialog == dialog && (before == 0 || last.id < before) then [last.id] + rest else rest
  }

  lemma ListedLast<H>(snapshots: seq<Snapshot<H>>, dialog: int, before: int)
    requires snapshots != []
    ensures var last, rest := snapshots[|snapshots| - 1], Listed(snapshots[..|snapshots| - 1], dialog, before);
            Listed(snapshots, dialog, before) == if last.dialog == dialog && (before == 0 || last.id < before)
                then [last.id] + rest else rest
  {
  }

  lemma ListedNone<H>(dialog: int, before: int)
    ensures Listed<H>([], dialog, before) == []
  {
  }

  lemma NextListed(ids: seq<int>, k: nat, id: int, rest: seq<int>)
    requires k <= |ids| && ids[k..] == [id] + rest
    ensures k < |ids| && ids[k] == id && ids[k + 1..] == rest
  {
    assert ids[k..][0] == id && ids[k..][1..] == rest && ids[k..][1..] == ids[k + 1..];
  }

  predicate Descending(ids: seq<int>) { forall i, j :: 0 <= i < j < |ids| ==> ids[i] > ids[j] }

  predicate Within(ids: seq<int>, before: int, highest: int) {
    forall i :: 0 <= i < |ids| ==> 0 < ids[i] <= highest && (before == 0 || ids[i] < before)
  }

  lemma OnTop(id: int, ids: seq<int>, before: int, highest: int)
    requires Descending(ids) && Within(ids, before, highest) && highest < id && id > 0 && (before == 0 || id < before)
    ensures Descending([id] + ids) && Within([id] + ids, before, id)
  {
  }

  function Highest<H>(snapshots: seq<Snapshot<H>>): int { if snapshots == [] then 0 else snapshots[|snapshots| - 1].id }

  lemma HighestGrows<H>(snapshots: seq<Snapshot<H>>)
    requires SnapshotsOk(snapshots) && snapshots != []
    ensures SnapshotsOk(snapshots[..|snapshots| - 1]) && 0 < snapshots[|snapshots| - 1].id
    ensures Highest(snapshots[..|snapshots| - 1]) < Highest(snapshots)
  {
    assert RowOk(snapshots[|snapshots| - 1]);
    hide RowOk, Key;
  }

  lemma {:induction false} ListedIds<H>(snapshots: seq<Snapshot<H>>, dialog: int, before: int)
    requires SnapshotsOk(snapshots)
    ensures Descending(Listed(snapshots, dialog, before))
    ensures Within(Listed(snapshots, dialog, before), before, Highest(snapshots))
  {
    if snapshots != [] {
      hide SnapshotsOk, Listed, Descending, Within;
      var last, rest := snapshots[|snapshots| - 1], snapshots[..|snapshots| - 1];
      HighestGrows(snapshots);
      ListedIds(rest, dialog, before);
      ListedLast(snapshots, dialog, before);
      StillWithin(Listed(rest, dialog, before), before, Highest(rest), last.id);
      if last.dialog == dialog && (before == 0 || last.id < before) {
        OnTop(last.id, Listed(rest, dialog, before), before, Highest(rest));
      }
    }
  }

  lemma StillWithin(ids: seq<int>, before: int, highest: int, higher: int)
    requires Within(ids, before, highest) && highest <= higher
    ensures Within(ids, before, higher)
  {
  }

  /** Exactly the dialog's ids below the bound are listed. */
  lemma {:induction false} ListedExactly<H>(snapshots: seq<Snapshot<H>>, dialog: int, before: int, id: int)
    ensures id in Listed(snapshots, dialog, before) <==>
            exists i :: 0 <= i < |snapshots| && snapshots[i].id == id && snapshots[i].dialog == dialog
                        && (before == 0 || id < before)
  {
    if snapshots != [] {
      var last, rest := snapshots[|snapshots| - 1], snapshots[..|snapshots| - 1];
      ListedExactly(rest, dialog, before, id);
      if id in Listed(rest, dialog, before) {
        var i :| 0 <= i < |rest| && rest[i].id == id && rest[i].dialog == dialog && (before == 0 || id < before);
        assert snapshots[i] == rest[i];
      }
      if i :| 0 <= i < |snapshots| && snapshots[i].id == id && snapshots[i].dialog == dialog
              && (before == 0 || id < before)
      {
        if i < |rest| {
          assert rest[i] == snapshots[i];
        }
      }
    }
  }

  /** Asking again below the last id of a page yields exactly what follows the page: nothing is skipped or repeated. */
  lemma {:induction false} NextPage<H>(snapshots: seq<Snapshot<H>>, dialog: int, before: int, count: nat)
    requires SnapshotsOk(snapshots) && 0 < count <= |Listed(snapshots, dialog, before)|
    ensures Listed(snapshots, dialog, Listed(snapshots, dialog, before)[count - 1]) == Listed(snapshots, dialog,
                before)[count..]
  {
    var ids := Listed(snapshots, dialog, before);
    ListedIds(snapshots, dialog, before);
    BelowIsSuffix(snapshots, dialog, before, count, ids[count - 1]);
  }

  lemma {:induction false} BelowIsSuffix<H>(snapshots: seq<Snapshot<H>>, dialog: int, before: int, count: nat,
      bound: int)
    requires SnapshotsOk(snapshots) && count <= |Listed(snapshots, dialog, before)| && bound > 0
    requires forall i :: 0 <= i < count ==> Listed(snapshots, dialog, before)[i] >= bound
    requires forall i :: count <= i < |Listed(snapshots, dialog, before)| ==>
                 Listed(snapshots, dialog, before)[i] < bound
    requires before == 0 || bound <= before
    ensures Listed(snapshots, dialog, bound) == Listed(snapshots, dialog, before)[count..]
  {
    if snapshots != [] {
      var last, rest := snapshots[|snapshots| - 1], snapshots[..|snapshots| - 1];
      var ids := Listed(rest, dialog, before);
      if last.dialog == dialog && (before == 0 || last.id < before) {
        assert Listed(snapshots, dialog, before) == [last.id] + ids;
        assert forall i :: 0 <= i < |ids| ==> Listed(snapshots, dialog, before)[i + 1] == ids[i];
        BelowIsSuffix(rest, dialog, before, if count == 0 then 0 else count - 1, bound);
        if count == 0 {
          assert Listed(snapshots, dialog, before)[0] == last.id && ids[0..] == ids;
        } else {
          assert Listed(snapshots, dialog, before)[0] == last.id;
          assert ([last.id] + ids)[count..] == ids[count - 1..];
        }
      } else {
        BelowIsSuffix(rest, dialog, before, count, bound);
      }
    }
  }

  // ----- the store

  class Store<H(==)> {
    const hash: Bytes -> H
    var snapshots: seq<Snapshot<H>>
    var originals: seq<Original<H>>
    var parts: map<int, seq<Part>>
    /** Each original as it was given, and every id ever given to a snapshot. */
    ghost var contents: map<int, Bytes>
    ghost var issued: seq<int>
    /** The body each snapshot was saved with. */
    ghost var saved: map<int, Body>
    /** How many inserts, updates and commits of an original have failed, or found the thread interrupted. */
    ghost var faults: nat

    ghost function Contents(): Tables<H>
      reads `snapshots, `originals, `parts
    {
      Tables(snapshots, originals, parts)
    }

    ghost predicate Sound()
      reads `snapshots, `originals, `parts, `contents
    {
      TablesOk(Contents(), contents, hash)
    }

    /** Ids only grow, and the highest one ever given is still there. */
    ghost predicate Numbered()
      reads `snapshots, `issued
    {
      && (forall i, j :: 0 <= i < j < |issued| ==> issued[i] < issued[j])
      && (snapshots == [] <==> issued == [])
      && (snapshots != [] ==> snapshots[|snapshots| - 1].id == issued[|issued| - 1])
    }

    /** Every row still has the body it was saved with. */
    ghost predicate Faithful()
      reads `snapshots, `saved
    {
      forall i :: 0 <= i < |snapshots| ==>
        snapshots[i].id in saved && snapshots[i].payload.plain == saved[snapshots[i].id]
    }

    ghost predicate Valid()
      reads this
    {
      Sound() && Numbered() && Faithful() && |snapshots| <= MAX_ROWS && Total(originals, parts) <= MAX_ORIGINALS_BYTES
    }

    constructor (hash: Bytes -> H)
      ensures Valid() && this.hash == hash && snapshots == [] && issued == [] && saved == map[]
    {
      this.hash := hash;
      snapshots, originals, parts, contents, issued, saved, faults := [], [], map[], map[], [], map[], 0;
    }

    method FindDuplicate(dialog: int, message: int, reason: int, fingerprint: H) returns (id: Option<int>)
      ensures id.Some? ==>
                exists i ::
                  && 0 <= i < |snapshots| && snapshots[i].id == id.value
                  && Key(snapshots[i]) == (dialog, message, reason, fingerprint)
      ensures id.None? ==>
                forall i :: 0 <= i < |snapshots| ==> Key(snapshots[i]) != (dialog, message, reason, fingerprint)
    {
      for i := 0 to |snapshots|
        invariant forall j :: 0 <= j < i ==> Key(snapshots[j]) != (dialog, message, reason, fingerprint)
      {
        if Key(snapshots[i]) == (dialog, message, reason, fingerprint) {
          return Some(snapshots[i].id);
        }
      }
      return None;
    }

    /**
     * A snapshot that is already there keeps its id; a new one gets the next id above every id ever given, and the
     * lowest snapshots make room, with their originals.  `encoded` is the size of the body's text, `disturbed` whether
     * the transaction fails.
     */
    method Save(dialog: int, message: int, reason: int, tl: Option<Bytes>, text: Option<string>, media: bool,
        clock: int, encoded: nat, disturbed: bool)
        returns (r: Result<int>)
      requires Valid()
      modifies `snapshots, `originals, `parts, `issued, `saved
      ensures Valid()
      ensures r.Failed? ==> Contents() == old(Contents()) && issued == old(issued)
      ensures issued == old(issued) ==> saved == old(saved)
      // It succeeds exactly on valid arguments, and where nothing is to be found, if the row fits and the transaction
      // does not fail.
      ensures r.Ok? <==>
                && dialog != 0 && message != 0 && 1 <= reason <= 3 && tl.Some? && |tl.value| <= MAX_TL_BYTES
                && text.Some?
                && (Kept(old(snapshots), (dialog, message, reason, hash(tl.value)))
                     || (!disturbed && encoded + OVERHEAD <= 131072))
      ensures r.Ok? ==>
                && tl.Some?
                && exists i ::
                     && 0 <= i < |snapshots| && snapshots[i].id == r.value
                     && Key(snapshots[i]) == (dialog, message, reason, hash(tl.value))
      ensures r.Ok? ==> (Kept(old(snapshots), (dialog, message, reason, hash(tl.value))) <==> issued == old(issued))
      ensures r.Ok? && issued == old(issued) ==> Contents() == old(Contents())
      ensures r.Ok? && issued != old(issued) ==>
                && issued == old(issued) + [r.value]
                && (forall i :: 0 <= i < |old(issued)| ==> old(issued)[i] < r.value)
                && text.Some?
                && var now := if clock > 0 then clock else 0;
                   var body := Body(dialog, message, reason, now, text.value, tl.value, media);
                   var row := Snapshot(r.value, dialog, message, reason, now, hash(tl.value),
                       Sealed(r.value, 0, body));
                   && saved == old(saved)[r.value := body]
                   && Contents() == Saved(old(Contents()), row)
                   && snapshots == (if |old(snapshots)| < 2000 then old(snapshots) else old(snapshots)[1..]) + [row]
                   && (|old(snapshots)| < 2000 ==> originals == old(originals) && parts == old(parts))
                   && (|old(snapshots)| >= 2000 ==>
                         && parts == old(parts) - {old(snapshots)[0].id}
                         && var id := old(snapshots)[0].id;
                            && originals == old(originals)[if HasOriginal(old(originals), id) then 1 else 0..]
                            && forall i :: 0 <= i < |originals| ==> originals[i].id != id)
    {
      hide TablesOk, Total, Cascaded, Saved;
      if dialog == 0 || message == 0 || reason < 1 || reason > 3 || tl.None? || |tl.value| > MAX_TL_BYTES
          || text.None? {
        return Failed;
      }
      var fingerprint := hash(tl.value);
      var duplicate := FindDuplicate(dialog, message, reason, fingerprint);
      if duplicate.Some? {
        return Ok(duplicate.value);
      }
      if disturbed || encoded + OVERHEAD > 131072 {
        return Failed;
      }
      var now := if clock > 0 then clock else 0;
      NextId();
      var id := if snapshots == [] then 1 else snapshots[|snapshots| - 1].id + 1;
      Insert(Snapshot(id, dialog, message, reason, now, fingerprint,
          Sealed(id, 0, Body(dialog, message, reason, now, text.value, tl.value, media))));
      r := Ok(id);
    }

    lemma NextId()
      requires Sound()
      ensures snapshots != [] ==> snapshots[|snapshots| - 1].id > 0
    {
      assert snapshots != [] ==> RowOk(snapshots[|snapshots| - 1]);
      hide Belongs, Ascending;
    }

    /** The new row, and the room made for it. */
    method Insert(row: Snapshot<H>)
      requires Valid() && RowOk(row)
      requires row.id == (if snapshots == [] then 1 else snapshots[|snapshots| - 1].id + 1)
      requires forall i :: 0 <= i < |snapshots| ==> Key(snapshots[i]) != Key(row)
      modifies `snapshots, `originals, `parts, `issued, `saved
      ensures Valid() && issued == old(issued) + [row.id] && saved == old(saved)[row.id := row.payload.plain]
      ensures forall i :: 0 <= i < |old(issued)| ==> old(issued)[i] < row.id
      ensures Contents() == Saved(old(Contents()), row)
      ensures snapshots == (if |old(snapshots)| < 2000 then old(snapshots) else old(snapshots)[1..]) + [row]
      ensures |old(snapshots)| < 2000 ==> originals == old(originals) && parts == old(parts)
      ensures |old(snapshots)| >= 2000 ==>
                && parts == old(parts) - {old(snapshots)[0].id}
                && var id := old(snapshots)[0].id;
                   && originals == old(originals)[if HasOriginal(old(originals), id) then 1 else 0..]
                   && forall i :: 0 <= i < |originals| ==> originals[i].id != id
    {
      hide TablesOk, Total, Cascaded, RowOk, Key;
      Append(row);
      if |snapshots| > MAX_ROWS {
        ghost var before := Contents();
        CascadedDrops(before, contents, hash);
        PruneOne();
        assert originals == Cascaded(before).originals && before.snapshots[0] == old(snapshots)[0];
      }
    }

    method Append(row: Snapshot<H>)
      requires Sound() && Numbered() && RowOk(row)
      requires row.id == (if snapshots == [] then 1 else snapshots[|snapshots| - 1].id + 1)
      requires forall i :: 0 <= i < |snapshots| ==> Key(snapshots[i]) != Key(row)
      requires Faithful()
      modifies `snapshots, `issued, `saved
      ensures Sound() && Numbered() && snapshots == old(snapshots) + [row] && issued == old(issued) + [row.id]
      ensures Faithful() && saved == old(saved)[row.id := row.payload.plain]
      ensures forall i :: 0 <= i < |old(issued)| ==> old(issued)[i] < row.id
    {
      assert forall i :: 0 <= i < |snapshots| ==> snapshots[i].id < row.id by { hide Belongs, Ascending; }
      RowAppended(Contents(), row, contents, hash);
      hide TablesOk, RowOk, Key;
      snapshots := snapshots + [row];
      issued := issued + [row.id];
      saved := saved[row.id := row.payload.plain];
    }

    /** Deletes what is not among the highest `MAX_ROWS` ids, which is one row. */
    method PruneOne()
      requires Sound() && Numbered() && |snapshots| == MAX_ROWS + 1
      modifies `snapshots, `originals, `parts
      ensures Sound() && Numbered() && Contents() == Cascaded(old(Contents())) && snapshots == old(snapshots)[1..]
      ensures old(Faithful()) ==> Faithful()
      ensures Total(originals, parts) <= old(Total(originals, parts))
    {
      hide TablesOk, Total, Sound, Cascaded;
      SoundIs();
      CascadedIsOk(Contents(), contents, hash);
      CascadedIs(Contents());
      var id := snapshots[0].id;
      snapshots := snapshots[1..];
      if originals != [] && originals[0].id == id {
        originals := originals[1..];
      }
      parts := parts - {id};
      SoundIs();
    }

    lemma SoundIs()
      ensures Sound() == TablesOk(Contents(), contents, hash)
    {
    }

    // ----- originals

    /** Fills the buffer from short reads; it fails exactly on an early end or an error. */
    method Fill(buffer: array<Byte>, wanted: nat, input: Reader) returns (ok: bool)
      requires 0 < wanted <= buffer.Length
      modifies buffer, input
      ensures input.faults >= old(input.faults)
      ensures ok <==> input.faults == old(input.faults) && wanted <= |old(input.source)|
      ensures ok ==> buffer[..wanted] == old(input.source)[..wanted] && input.source == old(input.source)[wanted..]
    {
      var read := 0;
      while read < wanted
        invariant read <= wanted && read <= |old(input.source)| && input.faults == old(input.faults)
        invariant buffer[..read] == old(input.source)[..read] && input.source == old(input.source)[read..]
      {
        ghost var left := input.source;
        var got := input.Read(wanted - read);
        if got.Failed? || got.value == [] {
          return false;
        }
        forall i | 0 <= i < |got.value| {
          buffer[read + i] := got.value[i];
        }
        assert old(input.source)[read..] == got.value + input.source;
        read := read + |got.value|;
      }
      return true;
    }

    /**
     * Copies the declared size into the table, chunk by chunk from part 2, and fails exactly on a fault or on a source
     * of another size; what it leaves behind on failure is rolled back.
     */
    method CopyParts(id: int, size: nat, input: Reader) returns (ok: bool, hashed: Bytes)
      requires 0 < size <= MAX_ORIGINAL_BYTES && id !in parts
      modifies `parts, `faults, input
      ensures faults >= old(faults) && input.faults >= old(input.faults)
      ensures ok <==> faults == old(faults) && input.faults == old(input.faults) && |old(input.source)| == size
      ensures parts.Keys <= old(parts).Keys + {id}
      ensures forall p :: p in old(parts) ==> p in parts && parts[p] == old(parts)[p]
      ensures ok ==> hashed == old(input.source) && parts == old(parts)[id := PartsOf(id, hashed)]
    {
      ghost var content := input.source;
      hashed := [];
      var buffer := new Byte[CHUNK_BYTES];
      var copied, part := 0, 2;
      parts := parts[id := []];
      while copied < size
        invariant faults == old(faults) && input.faults == old(input.faults)
        invariant 2 <= part && copied == Min((part - 2) * CHUNK_BYTES, size) && copied <= |content|
        invariant input.source == content[copied..]
        invariant (part == 2 || (part - 3) * CHUNK_BYTES < size) && hashed == content[..copied]
        invariant parts == old(parts)[id := Taken(id, content, size, part - 2, copied)]
        decreases size - copied
      {
        var interrupted: bool := *;
        if interrupted {
          faults := faults + 1;
          return false, hashed;
        }
        var wanted := Min(CHUNK_BYTES, size - copied);
        var filled := Fill(buffer, wanted, input);
        if !filled {
          return false, hashed;
        }
        NextTaken(id, content, size, part - 2, copied, wanted, buffer[..wanted]);
        parts := parts[id := parts[id] + [Part(part, Sealed(id, part, buffer[..wanted]))]];
        var inserted: bool := *;
        if !inserted {
          faults := faults + 1;
          return false, hashed;
        }
        hashed := hashed + buffer[..wanted];
        copied := copied + wanted;
        part := part + 1;
      }
      var after := input.Read(1);
      if after.Failed? || after.value != [] {
        return false, hashed;
      }
      AllTaken(id, content, size, part - 2);
      return true, hashed;
    }

    method OriginalBytes() returns (total: nat)
      ensures total == Total(originals, parts)
    {
      total := 0;
      for i := |originals| downto 0
        invariant total == Total(originals[i..], parts)
      {
        assert originals[i..][1..] == originals[i + 1..];
        total := total + Weight(originals[i], parts);
      }
      assert originals[0..] == originals;
    }

    /** Deletes the lowest originals until the quota is met. */
    method EvictOverflow()
      requires Sound()
      modifies `originals, `parts
      ensures Sound() && Total(originals, parts) <= MAX_ORIGINALS_BYTES
      ensures originals == Evicted(old(originals), old(parts))
    {
      hide TablesOk;
      var total := OriginalBytes();
      while total > MAX_ORIGINALS_BYTES
        invariant Sound() && total == Total(originals, parts)
        invariant Evicted(originals, old(parts)) == Evicted(old(originals), old(parts))
        invariant forall i :: 0 <= i < |originals| ==> Weight(originals[i], parts) == Weight(originals[i], old(parts))
        decreases |originals|
      {
        hide Weight;
        TotalOfOthers(originals, parts, old(parts));
        FirstEvicted(Contents(), contents, hash);
        originals, parts := originals[1..], parts - {originals[0].id};
        total := OriginalBytes();
      }
      TotalOfOthers(originals, parts, old(parts));
    }

    /**
     * Everything commits together or nothing does.  What survives the quota is the old originals and the new one
     * without the lowest ids; if the new one survives it can be restored byte for byte.
     */
    method SaveOriginal(id: int, input: Option<Reader>, expectedSize: int, mime: Option<string>) returns (r: Result<()>)
      requires Valid()
      modifies `originals, `parts, `contents, `faults, if input.Some? then {input.value} else {}
      ensures Valid()
      ensures r.Failed? ==> Contents() == old(Contents()) && contents == old(contents)
      ensures r.Ok? ==>
                && HasRow(snapshots, id) && input.Some? && mime.Some? && ValidMime(mime.value)
                && 0 < expectedSize <= MAX_ORIGINAL_BYTES
      // Without a fault it fails only on invalid arguments, a missing snapshot, or a new original of another size.
      ensures faults >= old(faults) && (input.Some? ==> input.value.faults >= old(input.value.faults))
      ensures faults == old(faults) && (input.Some? ==> input.value.faults == old(input.value.faults)) ==>
                (r.Ok? <==>
                    && input.Some? && mime.Some? && ValidMime(mime.value) && 0 < expectedSize <= MAX_ORIGINAL_BYTES
                    && HasRow(snapshots, id)
                            && (HasOriginal(old(originals), id) || |old(input.value.source)| == expectedSize))
      ensures r.Ok? && HasOriginal(old(originals), id) ==> Contents() == old(Contents()) && contents == old(contents)
      ensures r.Ok? && !HasOriginal(old(originals), id) ==>
                var content := old(input.value.source);
                && |content| == expectedSize && contents == old(contents)[id := content]
                && originals == Evicted(Inserted(old(originals), OriginalOf(id, content, mime.value, hash)),
                     old(parts)[id := PartsOf(id, content)])
                && (HasOriginal(originals, id) ==>
                      && Restored(Contents(), id, hash) == Ok(content)
                      && DescribedAs(id, Descriptor(|content|, (|content| + 65535) / 65536, mime.value, hash(content))))
    {
      hide TablesOk, Evicted, OriginalOf, Restored, HasOriginal, HasRow, ValidMime, RowOk, PartsOf, Total, DescribedAs;
      hide Inserted, FindOriginal, Numbered, Faithful, ChunkCount;
      if input.None? || expectedSize <= 0 || expectedSize > MAX_ORIGINAL_BYTES || mime.None? || !ValidMime(mime.value) {
        return Failed;
      }
      Lookup(id);
      LookedUp(id);
      var row := FindRow(snapshots, id);
      if id <= 0 || row.None? || !RowOk(row.value) {
        return Failed;
      }
      var existing := FindOriginal(originals, id);
      if existing.Some? {
        return if DescriptorOk(existing.value, id) then Ok(()) else Failed;
      }
      var stored := StoreNew(id, expectedSize, mime.value, input.value);
      return if stored then Ok(()) else Failed;
    }

    /** The transaction: all or nothing. */
    method StoreNew(id: int, size: nat, mime: string, input: Reader) returns (ok: bool)
      requires Valid() && HasRow(snapshots, id) && !HasOriginal(originals, id)
      requires 0 < size <= MAX_ORIGINAL_BYTES && ValidMime(mime)
      modifies `originals, `parts, `contents, `faults, input
      ensures Valid() && faults >= old(faults) && input.faults >= old(input.faults)
      ensures !ok ==> Contents() == old(Contents()) && contents == old(contents)
      ensures faults == old(faults) && input.faults == old(input.faults) ==> (ok <==> |old(input.source)| == size)
      ensures ok ==>
                var content := old(input.source);
                && |content| == size && contents == old(contents)[id := content]
                && originals == Evicted(Inserted(old(originals), OriginalOf(id, content, mime, hash)),
                     old(parts)[id := PartsOf(id, content)])
                && (HasOriginal(originals, id) ==>
                      && Restored(Contents(), id, hash) == Ok(content)
                      && DescribedAs(id, Descriptor(|content|, (|content| + 65535) / 65536, mime, hash(content))))
    {
      hide TablesOk, Evicted, OriginalOf, Restored, HasOriginal, HasRow, ValidMime, RowOk, PartsOf, Total, DescribedAs;
      hide Inserted, FindOriginal, Numbered, Faithful, ChunkCount;
      Lookup(id);
      var savedOriginals, savedParts := originals, parts;
      ghost var savedContents := contents;
      var begun: bool := *;
      if !begun {
        faults := faults + 1;
        return false;
      }
      var copied, content := CopyParts(id, size, input);
      if !copied {
        parts := savedParts;
        return false;
      }
      Finish(id, content, mime, old(Contents()));
      var committed: bool := *;
      if !committed {
        originals, parts, contents := savedOriginals, savedParts, savedContents;
        faults := faults + 1;
        return false;
      }
      RestoredIsContent(Contents(), contents, id, hash);
      return true;
    }

    /** The original that is there has this descriptor. */
    ghost predicate DescribedAs(id: int, d: Descriptor<H>)
      reads `originals
    {
      var o := FindOriginal(originals, id);
      o.Some? && o.value.metadata.plain == d
    }

    lemma Described(id: int, content: Bytes, mime: string, before: seq<Original<H>>, parts: map<int, seq<Part>>)
      requires Ascending(before) && !HasOriginal(before, id)
      requires originals == Evicted(Inserted(before, OriginalOf(id, content, mime, hash)), parts)
      ensures HasOriginal(originals, id) ==>
                DescribedAs(id, Descriptor(|content|, (|content| + 65535) / 65536, mime, hash(content)))
    {
      NewestFound(before, OriginalOf(id, content, mime, hash), parts);
      hide Evicted, Inserted, HasOriginal, FindOriginal, PartsOf, PartBytes, DescriptorBytes;
    }

    /** With all parts in place: the row, its descriptor, and the quota. */
    method Finish(id: int, content: Bytes, mime: string, ghost before: Tables<H>)
      requires TablesOk(before, contents, hash) && HasRow(snapshots, id) && !HasOriginal(originals, id)
      requires snapshots == before.snapshots && originals == before.originals
      requires parts == before.parts[id := PartsOf(id, content)]
      requires 0 < |content| <= MAX_ORIGINAL_BYTES && ValidMime(mime)
      modifies `originals, `parts, `contents
      ensures Sound() && Total(originals, parts) <= MAX_ORIGINALS_BYTES && contents == old(contents)[id := content]
      ensures originals == Evicted(Inserted(before.originals, OriginalOf(id, content, mime, hash)),
                  before.parts[id := PartsOf(id, content)])
      ensures HasOriginal(originals, id) ==>
                DescribedAs(id, Descriptor(|content|, (|content| + 65535) / 65536, mime, hash(content)))
    {
      TablesAre(before, contents, hash);
      hide TablesOk, Ascending, SnapshotsOk, Belongs, DescribedAs, Evicted, OriginalOf, HasOriginal, HasRow, ValidMime;
      hide PartsOf, Total, PartBytes, DescriptorBytes;
      OriginalAdded(before, id, content, mime, contents, hash);
      OriginalAsBuilt(id, content, mime);
      var d := Descriptor(|content|, |parts[id]|, mime, hash(content));
      originals := Inserted(originals,
          Original(id, Sealed(id, 1, d), DescriptorBytes(d) + OVERHEAD + PartBytes(parts[id])));
      contents := contents[id := content];
      EvictOverflow();
      Described(id, content, mime, before.originals, before.parts[id := PartsOf(id, content)]);
    }

    /** Finding by id is having, and only originals have parts. */
    lemma Lookup(id: int)
      requires Sound()
      ensures HasRow(snapshots, id) <==> FindRow(snapshots, id).Some?
      ensures HasOriginal(originals, id) <==> FindOriginal(originals, id).Some?
      ensures id in parts ==> HasOriginal(originals, id)
    {
      FoundRow(snapshots, id);
      FoundOriginal(originals, id);
      hide Belongs, HasRow, HasOriginal, SnapshotsOk;
    }

    /** What is there can be read. */
    lemma LookedUp(id: int)
      requires Sound()
      ensures HasRow(snapshots, id) ==> id > 0 && FindRow(snapshots, id).Some? && RowOk(FindRow(snapshots, id).value)
      ensures HasOriginal(originals, id) ==>
                FindOriginal(originals, id).Some? && DescriptorOk(FindOriginal(originals, id).value, id)
    {
      FoundRow(snapshots, id);
      FoundOriginal(originals, id);
      hide SnapshotsOk, ValidMime, PartsOf, Weight;
    }

    lemma OriginalAsBuilt(id: int, content: Bytes, mime: string)
      ensures |PartsOf(id, content)| == ChunkCount(|content|)
      ensures var d := Descriptor(|content|, |PartsOf(id, content)|, mime, hash(content));
              OriginalOf(id, content, mime, hash) == Original(id, Sealed(id, 1, d),
                  DescriptorBytes(d) + OVERHEAD + PartBytes(PartsOf(id, content)))
    {
    }

    /** Gives exactly what the tables hold, checked part by part and against the digest, or fails. */
    method WriteOriginal(id: int, disturbed: bool) returns (r: Result<Bytes>)
      ensures r == if disturbed then Failed else Restored(Contents(), id, hash)
    {
      var row, o := FindRow(snapshots, id), FindOriginal(originals, id);
      if disturbed || row.None? || !RowOk(row.value) || o.None? || !DescriptorOk(o.value, id) {
        return Failed;
      }
      var d, rows := o.value.metadata.plain, if id in parts then parts[id] else [];
      assert d.chunks == ChunkCount(d.size);
      assert Restored(Contents(), id, hash) == if Complete(d, rows, id, hash) then Ok(Joined(rows)) else Failed;
      hide ValidMime, RowOk, DescriptorOk, Restored, ChunkCount, Joined, Follows, FindRow, FindOriginal;
      var output: Bytes := [];
      NothingWritten(rows, id, d.size);
      for k := 0 to |rows|
        invariant k <= d.chunks && output == Joined(rows[..k]) && Follows(rows, id, d.size, k)
        invariant |output| == Min(k * CHUNK_BYTES, d.size)
      {
        if k >= d.chunks || rows[k].number != k + 2 || rows[k].payload.Open(id, k + 2).None?
            || |rows[k].payload.plain| != Min(CHUNK_BYTES, d.size - |output|) {
          FollowsFails(rows, id, d.size, d.chunks, k, |output|);
          return Failed;
        }
        MoreWritten(rows, id, d.size, k, |output|);
        output := output + rows[k].payload.plain;
      }
      assert rows[..|rows|] == rows;
      return if |output| == d.size && |rows| == d.chunks && hash(output) == d.digest then Ok(output) else Failed;
    }

    /** The snapshot as it was saved, and the descriptor of its original if it has one. */
    ghost function EntryOf(id: int): Entry<H>
      requires id in saved
      reads `saved, `originals
    {
      var b, o := saved[id], FindOriginal(originals, id);
      Entry(id, b.message, b.reason, b.savedAt, b.text, b.media, if o.Some? then Some(o.value.metadata.plain) else None)
    }

    /** Newest first, at most a page, each as it was saved and with its original if it has one. */
    method List(dialog: int, before: int) returns (r: Result<seq<Entry<H>>>)
      requires Valid()
      ensures r.Failed? <==> dialog == 0 || before < 0
      ensures r.Ok? ==>
                var ids := Listed(snapshots, dialog, before);
                && |r.value| == Min(PAGE_SIZE, |ids|)
                && forall i :: 0 <= i < |r.value| ==>
                     ids[i] in saved && saved[ids[i]].dialog == dialog && r.value[i] == EntryOf(ids[i])
    {
      hide Valid, FindOriginal, Listed, RowOk, DescriptorOk;
      if dialog == 0 || before < 0 {
        return Failed;
      }
      var page: seq<Entry<H>>, legible := [], true;
      ghost var ids := Listed(snapshots, dialog, before);
      var i := |snapshots|;
      assert snapshots[..i] == snapshots;
      assert ids[0..] == ids;
      while i > 0 && |page| < PAGE_SIZE
        invariant 0 <= i <= |snapshots| && |page| <= PAGE_SIZE && |page| <= |ids| && legible
        invariant ids[|page|..] == Listed(snapshots[..i], dialog, before)
        invariant forall k :: 0 <= k < |page| ==>
          ids[k] in saved && saved[ids[k]].dialog == dialog && page[k] == EntryOf(ids[k])
      {
        i := i - 1;
        ListedLast(snapshots[..i + 1], dialog, before);
        assert snapshots[..i + 1][..i] == snapshots[..i];
        if snapshots[i].dialog == dialog && (before == 0 || snapshots[i].id < before) {
          NextListed(ids, |page|, snapshots[i].id, Listed(snapshots[..i], dialog, before));
          Legible(i);
          var row, o := snapshots[i], FindOriginal(originals, snapshots[i].id);
          legible := legible && RowOk(row) && (o.None? || DescriptorOk(o.value, row.id));
          page := page + [Entry(row.id, row.message, row.reason, row.createdAt, row.payload.plain.text,
              row.payload.plain.media, if o.Some? then Some(o.value.metadata.plain) else None)];
        }
      }
      if i == 0 {
        ListedNone<H>(dialog, before);
        assert snapshots[..0] == [];
      }
      return if legible then Ok(page) else Failed;
    }

    /** A row of a sound store can be read, and says what was saved. */
    lemma Legible(i: nat)
      requires Valid() && i < |snapshots|
      ensures var row, o := snapshots[i], FindOriginal(originals, snapshots[i].id);
              && RowOk(row) && (o.None? || DescriptorOk(o.value, row.id)) && row.id in saved
              && var b := saved[row.id];
                 && b == row.payload.plain && b.dialog == row.dialog && b.message == row.message
                 && b.reason == row.reason && b.savedAt == row.createdAt
    {
      assert RowOk(snapshots[i]);
      Lookup(snapshots[i].id);
      LookedUp(snapshots[i].id);
      hide TablesOk, DescriptorOk;
    }
  }

  /** A part that is out of order, does not open or has the wrong length spoils the whole original. */
  lemma FollowsFails(rows: seq<Part>, id: int, size: nat, chunks: nat, k: nat, written: nat)
    requires k < |rows| && chunks == ChunkCount(size) && written == Min(k * CHUNK_BYTES, size)
    requires
               || k >= chunks || rows[k].number != k + 2 || rows[k].payload.Open(id, k + 2).None?
               || |rows[k].payload.plain| != Min(CHUNK_BYTES, size - written)
    ensures |rows| == chunks ==> !Follows(rows, id, size, |rows|)
  {
  }

  lemma NothingWritten(rows: seq<Part>, id: int, size: nat)
    ensures Joined(rows[..0]) == [] && Follows(rows, id, size, 0)
  {
  }

  lemma MoreWritten(rows: seq<Part>, id: int, size: nat, k: nat, written: nat)
    requires k < |rows| && k < ChunkCount(size) && Follows(rows, id, size, k) && written == Min(k * CHUNK_BYTES, size)
    requires rows[k].number == k + 2 && rows[k].payload.Open(id, k + 2).Some?
    requires |rows[k].payload.plain| == Min(CHUNK_BYTES, size - written)
    ensures Follows(rows, id, size, k + 1) && Joined(rows[..k + 1]) == Joined(rows[..k]) + rows[k].payload.plain
    ensures written + |rows[k].payload.plain| == Min((k + 1) * CHUNK_BYTES, size)
  {
    assert rows[..k + 1][..k] == rows[..k];
  }

  /** The rows of the first `count` chunks, all within the first `copied` bytes. */
  function Taken(id: int, content: Bytes, size: nat, count: nat, copied: nat): seq<Part>
    requires copied <= |content| && copied == Min(count * CHUNK_BYTES, size)
    requires count == 0 || (count - 1) * CHUNK_BYTES < size
  {
    PartsUpTo(id, content[..copied], copied, count)
  }

  lemma NextTaken(id: int, content: Bytes, size: nat, count: nat, copied: nat, wanted: nat, chunk: Bytes)
    requires copied < size && copied == Min(count * CHUNK_BYTES, size)
    requires count == 0 || (count - 1) * CHUNK_BYTES < size
    requires wanted == Min(CHUNK_BYTES, size - copied) && copied + wanted <= |content|
    requires chunk == content[copied..][..wanted]
    ensures copied + wanted == Min((count + 1) * CHUNK_BYTES, size) && count * CHUNK_BYTES < size
    ensures Taken(id, content, size, count + 1, copied + wanted) == Taken(id, content, size, count, copied)
                + [Part(count + 2, Sealed(id, count + 2, chunk))]
  {
    var all, first := content[..copied + wanted], content[..copied];
    assert copied == count * CHUNK_BYTES;
    SameChunks(id, all, first, count);
    assert Chunk(all, count, copied + wanted) == chunk;
    hide Chunk;
  }

  /** Full chunks depend only on the bytes they cover. */
  lemma {:induction false} SameChunks(id: int, a: Bytes, b: Bytes, count: nat)
    requires count * CHUNK_BYTES <= |a| && count * CHUNK_BYTES <= |b|
    requires a[..count * CHUNK_BYTES] == b[..count * CHUNK_BYTES]
    ensures PartsUpTo(id, a, |a|, count) == PartsUpTo(id, b, |b|, count)
  {
    if count > 0 {
      var less := (count - 1) * CHUNK_BYTES;
      assert a[..less] == a[..count * CHUNK_BYTES][..less] && b[..less] == b[..count * CHUNK_BYTES][..less];
      SameChunks(id, a, b, count - 1);
      assert Chunk(a, count - 1, |a|) == a[..count * CHUNK_BYTES][less..]
          && Chunk(b, count - 1, |b|) == b[..count * CHUNK_BYTES][less..];
    }
  }

  lemma AllTaken(id: int, content: Bytes, size: nat, count: nat)
    requires 0 < size == |content| <= count * CHUNK_BYTES && count > 0 && (count - 1) * CHUNK_BYTES < size
    ensures Taken(id, content, size, count, size) == PartsOf(id, content)
  {
    assert content[..size] == content && count == ChunkCount(size);
  }
}
